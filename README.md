# Deep agent chat: event-stream adapter, settings and server registries

This project models the core of a Next.js chat front end for a "deep agent".
The agent yields a stream of typed events: text, tool calls and results,
todo updates, file, command, web and sub-agent activity, errors and `done`.

- **Server mapper.** It turns each agent event into chunks of the UI message
  stream. It threads the id of the open text span from one event to the next,
  and closes a span left open when the run ends or throws.
- **Two client hooks** read that stream line by line:
  - The *basic* hook keeps an event log, a pending text buffer and an agent
    status. It derives the UI messages, tool parts and task cards from them.
  - The *full-events* hook writes straight into the assistant message's
    parts. It keeps the todo list, the status and an error message.
- **Settings store.** It holds the user's API keys, the selected provider and
  model, and whether it follows the server's defaults. The model picker's
  handler keeps provider and model in step.
- **Sandbox registry.** Two server-side maps from a sandbox key to a backend
  instance and to its E2B id.
- **Two model-list routes** (`GET /api/models/anthropic`, `GET
  /api/models/openai`). They share a five-minute cache per provider and a
  ladder of error answers.

Every module works on plain values:
- JSON values are a `Json` datatype.
- A JavaScript `Map` is an insertion-ordered list of entries (`JsMap`).
- A stateful piece of the source is a class whose fields the methods
  reassign: the writer, each hook's state, the store, the registry and the
  route cache.
- Each such method is stated against a function of the old state. The
  properties are proved about those functions.

What the program gets from outside becomes a parameter:
- `JSON.parse` and `JSON.stringify`;
- `Date.now()`, as a clock indexed by how often it was read;
- the id generator, as the k-th id it returns;
- the HTTP response: status, body chunks, or a rejection;
- what the upstream model APIs answer;
- which `dispose()` calls throw.

Where the source's own comments and its code disagree, the model follows the
code: `convertToQueueTodos` in `src/lib/use-chat-api.ts` is documented as
marking cancelled todos completed (line 179). Its code drops them (line 183),
and the model drops them.

A text span is closed only by `tool-call`, `error` and `done`. Step,
tool-result and data events do not close it, so a "run" of text events
continues across them. `TextRuns` counts runs that way.

The three defects under "## Findings" are modelled as written: the execute
loop, the full-events hook and the Anthropic route do what the code does. The
corrected behaviour sits beside each, with its intended property proved:
- the run-level mapper functions take a `Mapper`, `AsWritten` (the source's
  text case, which `Execute` runs) or `Corrected`, and the bracketing and
  counting lemmas hold for both;
- the hook threads the request-wide `currentText`; `AddText` is the
  corrected text update;
- the route fetches `ModelsUrlAsWritten`; `ModelsUrl` is the corrected URL.

## Model

| member | source | states |
|---|---|---|
| AgentEvents.KindOfName | src/lib/use-chat-full-events.ts:141-198 | A recognised name maps back to the custom kind whose wire name it is |
| AgentEvents.KindNamesRoundTrip | src/lib/create-full-events-handler.ts:272-480 | Every custom kind is recognised under the name the mapper writes for it; `todos-changed` is not one of the eighteen kinds |
| EventMapper.MapEventShape | src/lib/create-full-events-handler.ts:183-521 | With either text case: only `text` calls the id generator, and only when no span is open; `tool-call`, `error` and `done` write the closing `text-end` first and return no span; every other event writes one chunk (none for an unlisted type) and keeps the span; a `text-start` is the source's whole step, and is followed by the event's text in the corrected step |
| EventMapper.StepKeepsBracketing | src/lib/create-full-events-handler.ts:202-238 | With either text case, replayed from the span open before it, one event's chunks are legal and leave open exactly the span the mapper returns |
| EventMapper.MapEventAsWritten | src/lib/create-full-events-handler.ts:202-210 | The source's text case: a `text` event with no span open writes exactly `[text-start]`, the first chunk of the corrected step without its delta, and opens the same span; every other event maps as the corrected step (a Findings row) |
| EventMapper.FirstTextDroppedAsWritten | src/lib/create-full-events-handler.ts:202-217 | As written, the opening event's text is carried by no delta, while the corrected mapper writes it as the span's first delta |
| EventMapper.MapEventTextRuns | src/lib/create-full-events-handler.ts:202-238 | One event writes a `text-start` exactly when it is a `text` event with no span open, and leaves a span open exactly while a text run goes on; its text is written as a delta except by the source's step when it opens the span |
| EventMapper.Writer.WriteAll | src/lib/create-full-events-handler.ts:155 | The writer's output grows by exactly the step's chunks, in order |
| EventMapper.Execute | src/lib/create-full-events-handler.ts:128-169 | The loop writes the chunks the source's mapper gives for all events, then a `text-end` when a span is still open, whether the run completes or throws; it rethrows exactly when the run throws |
| EventMapper.MapAllBracketing | src/lib/create-full-events-handler.ts:138-150 | For the source's loop and the corrected one, after any prefix of the run the written chunks are legal and `currentTextId` is the span they leave open |
| EventMapper.RunOutputWellBracketed | src/lib/create-full-events-handler.ts:128-169 | For both text cases, each `text-start` is matched by one `text-end` before the next `text-start`, every delta carries the open id, and no span is left open, given ids that are never empty |
| EventMapper.TextStartsCountRuns | src/lib/create-full-events-handler.ts:202-238 | For both text cases, a span is open exactly while a text run is going, and one `text-start` is written per text run |
| EventMapper.RunOutputTextStarts | src/lib/create-full-events-handler.ts:153-167 | For both text cases, the closing chunk adds no `text-start`: the output has one per text run |
| EventMapper.DeltasAreTexts | src/lib/create-full-events-handler.ts:202-217 | With the corrected text case, the deltas on the wire are exactly the texts of the `text` events, in order (a Findings row) |
| EventMapper.MapAllDeltas | src/lib/create-full-events-handler.ts:138-150 | The loop writes as deltas every text with the corrected step, and with the source's step the texts that continue a run |
| EventMapper.DeltasAsWritten | src/lib/create-full-events-handler.ts:128-217 | As written, the deltas on the wire are the texts that continue a run, in order: one text per run, its first, never reaches the wire |
| EventMapper.OneTextLostPerRun | src/lib/create-full-events-handler.ts:202-217 | The texts of a run are its continuing texts plus one per text run |
| EventMapper.SingleTextReply | src/lib/create-full-events-handler.ts:128-217 | A reply made of one `text` event and `done` writes start, end and finish and no text as written; start, the text, end and finish when corrected |
| EventMapper.ErrorDoesNotStopLoop | src/lib/create-full-events-handler.ts:486-499 | An `error` event is written and the loop goes on: a later `text` opens a new span (with no delta, as written) that is closed at the end |
| Transport.ErrorText | src/lib/use-chat-api.ts:371 | `String(error)`: the name, then `": "`, then exactly the message when both are non-empty; whichever is non-empty otherwise |
| ToolPairing.Find | src/lib/use-chat-api.ts:103 | The position of a key in the tool map, or that no entry has it |
| ToolPairing.RecordAt | src/lib/use-chat-api.ts:99-108 | A call (re)sets its id's entry with no result; a result updates an existing entry only; no other id's entry changes; keys stay unique |
| ToolPairing.GroupIsExpected | src/lib/use-chat-api.ts:94-108 | The grouping loop maps each id some call carries to its last call and the last result after that call, and no other id |
| ToolPairing.GroupOrder | src/lib/use-chat-api.ts:94-111 | Entries keep the order of each id's first call: a repeated call does not move its entry |
| ChatApiUtils.MapAgentStatusToUIStatus | src/lib/use-chat-api-utils.ts:66-81 | Thinking, tool-call and sub-agent map to submitted, streaming to streaming, error to error, idle and done to ready, each in both directions |
| ChatApiUtils.BusyIffWorking | src/lib/use-chat-api-utils.ts:66-81 | The UI shows work in progress exactly while the agent is working |
| ChatApiUtils.ConvertEventsToUIMessages | src/lib/use-chat-api-utils.ts:88-183 | The loop over the event log computes the conversion the lemmas below describe |
| ChatApiUtils.ConvFoldInvariant | src/lib/use-chat-api-utils.ts:101-158 | Emitted plus pending assistant parts are the parts of the events so far; one user message per user-message event; no empty assistant message |
| ChatApiUtils.ConvertKeepsParts | src/lib/use-chat-api-utils.ts:88-183 | The assistant messages hold exactly the parts of the logged text segments, tool calls and tool results, in log order, then the streaming text when there is any |
| ChatApiUtils.ConvertShape | src/lib/use-chat-api-utils.ts:101-181 | One user message per user-message event, and no assistant message without parts |
| ChatApiUtils.ConvertTrailing | src/lib/use-chat-api-utils.ts:160-181 | A trailing assistant message is added exactly when there is streaming text or pending parts; the streaming text is its last part and its status is the UI status |
| ChatApiUtils.UserMessageFlushes | src/lib/use-chat-api-utils.ts:105-124 | A user message first closes pending parts into a ready assistant message, only when there are some, then adds the user message with its log id and one text part |
| ChatApiUtils.LastAssistant | src/lib/use-chat-api-utils.ts:192-194 | The position of the last assistant message, or that there is none |
| ChatApiUtils.ToolPartsOfAppend | src/lib/use-chat-api-utils.ts:200-204 | Selecting tool parts distributes over concatenation |
| ChatApiUtils.ExtractToolParts | src/lib/use-chat-api-utils.ts:191-222 | No parts without an assistant message; otherwise the tool-call and tool-result parts of the last assistant message, in order |
| ChatApi.FormatToolInput | src/lib/use-chat-api.ts:158-168 | "Running with parameters" exactly for an object without exactly one entry; one entry is shown as `key: value`; anything else after `Running with: ` |
| ChatApi.FormatToolResult | src/lib/use-chat-api.ts:170-175 | "Completed" exactly for an object, otherwise `Completed: ` followed by `String(result)` |
| ChatApi.TaskOf | src/lib/use-chat-api.ts:111-155 | Error iff the result has a truthy `isError`; completed iff a result without it; in progress iff no result while the chat is busy; an input item iff the args are truthy, holding `formatToolInput(toolName, args)` with the args as data; the last item is the error `String(result)`, the result `formatToolResult(result)` or `"Running..."`, each with its data |
| ChatApi.ConvertToolPartsToTasks | src/lib/use-chat-api.ts:89-156 | The loop makes one card per tool-map entry, in map order |
| ChatApi.TasksFollowCalls | src/lib/use-chat-api.ts:89-156 | One card per id some call carries, ordered by first call; made from the last call and the last result after it; a result without a call gets no card |
| ChatApi.KeptTodosFilter | src/lib/use-chat-api.ts:183 | The queue keeps exactly the todos whose status is not `cancelled` |
| ChatApi.QueueTodoOf | src/lib/use-chat-api.ts:184-188 | A queue todo takes id and content; it is completed exactly when the todo's status is `completed` |
| ChatApi.ConvertToQueueTodos | src/lib/use-chat-api.ts:181-189 | Fails exactly when an item is null or undefined; otherwise one queue todo per kept todo, in order |
| ChatApi.CancelledTodoIsDropped | src/lib/use-chat-api.ts:181-189 | Adding a cancelled todo anywhere leaves the queue as it was |
| ChatApi.EventIdsDistinct | src/lib/use-chat-api.ts:80-84 | Event ids made from different counter values differ |
| ChatApi.BoundaryFlushesFirst | src/lib/use-chat-api.ts:318-350 | At a tool call, todo update, `done` or `error`, non-blank pending text is logged as one segment just before the event and cleared; blank text is neither logged nor cleared; the status follows the event |
| ChatApi.TextAccumulates | src/lib/use-chat-api.ts:306-311 | A text event extends and shows the pending text, logs nothing and sets streaming |
| ChatApi.OtherEventsKeepText | src/lib/use-chat-api.ts:312-354 | Other events keep text and status; each is logged under the next id, except a step start for the first step; only a tool result refreshes the files |
| ChatApi.SendExtends | src/lib/use-chat-api.ts:250-376 | A send keeps every logged entry, logs the user's message first and numbers each new entry with the next id; it always releases the controller; a blank message changes nothing |
| ChatApi.OperationsKeepIdsUnique | src/lib/use-chat-api.ts:80-84 | Sending, aborting and clearing keep the log's ids unique and ahead of none the counter still has to hand out |
| ChatApi.DoneSkipsRestOfChunk | src/lib/use-chat-api.ts:294-300 | A `[DONE]` line sets idle and the rest of its chunk is not read |
| ChatApi.ChunksEndIdle | src/lib/use-chat-api.ts:362 | After any chunk the status is idle, overriding `done` or `error` |
| ChatApi.StreamEndStatus | src/lib/use-chat-api.ts:250-363 | A normal end is idle after at least one chunk and still thinking after none |
| ChatApi.FailureIsLogged | src/lib/use-chat-api.ts:364-372 | An abort ends idle with no error entry; any other failure ends in error with `String(error)` logged last |
| ChatApi.ChatApiSession.CreateEventId | src/lib/use-chat-api.ts:82-84 | The counter goes up by one and the id carries its new value |
| ChatApi.ChatApiSession.AddEvent | src/lib/use-chat-api.ts:223-236 | Logs the event under a fresh id |
| ChatApi.ChatApiSession.FlushTextSegment | src/lib/use-chat-api.ts:239-248 | The hook's state after a flush |
| ChatApi.ChatApiSession.SendMessage | src/lib/use-chat-api.ts:250-376 | The hook's state after a send, as the lemmas above describe |
| ChatApi.ChatApiSession.Abort | src/lib/use-chat-api.ts:378-383 | Aborts and goes idle only when a request holds a controller |
| ChatApi.ChatApiSession.Clear | src/lib/use-chat-api.ts:385-392 | Empties the log, the text and the todos, goes idle and starts a refresh |
| FullEventsClient.EventPartReads | src/lib/use-chat-full-events.ts:151-155 | A custom event's part carries the timestamp, every payload property but `timestamp`, and the event's name as its type unless the payload has a `type` |
| FullEventsClient.TextRepeatsAfterOtherPart | src/lib/use-chat-full-events.ts:342-370 | As written, text after another part repeats all earlier text (a Findings row) |
| FullEventsClient.AddTextAppends | src/lib/use-chat-full-events.ts:342-370 | With the corrected update (which the hook does not use), the text parts hold every delta once and in order |
| FullEventsClient.TextOnceAfterOtherPart | src/lib/use-chat-full-events.ts:342-370 | The same stream as in the as-written lemma reads `a + b` |
| FullEventsClient.DispatchStreams | src/lib/use-chat-full-events.ts:339-370 | A text event adds its delta to `currentText` and the assistant message then ends in a text part holding all of `currentText`; other events leave `currentText` alone |
| FullEventsClient.HandleLinesStreams | src/lib/use-chat-full-events.ts:327-380 | A chunk's lines extend `currentText` by the deltas of its text events, in order, up to `[DONE]` |
| FullEventsClient.ReadChunksStreams | src/lib/use-chat-full-events.ts:322-386 | Reading the body extends `currentText` by the deltas of every chunk, in order |
| FullEventsClient.SendStreamsAllDeltas | src/lib/use-chat-full-events.ts:320-386 | `currentText` starts empty with each request and ends holding every delta of its body, however the stream ends |
| FullEventsClient.SetTextEnds | src/lib/use-chat-full-events.ts:353-364 | After a text update the last part is a text part holding the given text |
| FullEventsClient.TodosFromData | src/lib/use-chat-full-events.ts:201-211 | The todos of a payload, one per item in order, or failure exactly for a nullish payload, a list that is not an array, or a nullish item; a falsy `todos` gives the empty list |
| FullEventsClient.TodoListsOfBothHooks | src/lib/use-chat-full-events.ts:201-211 | This hook shows a cancelled todo as pending where the basic hook drops it; without cancelled todos the two lists agree |
| FullEventsClient.SendTouchesOnlyItsTurn | src/lib/use-chat-full-events.ts:216-397 | A send appends the user's and the assistant's message and writes only into messages with the assistant's id; a normal end leaves the hook ready without a cursor, or streaming with the cursor on that message |
| FullEventsClient.ReadChunksInTurn | src/lib/use-chat-full-events.ts:322-386 | Reading chunks keeps the request in its turn and touches only the assistant message |
| FullEventsClient.FailureShowsMessage | src/lib/use-chat-full-events.ts:301-396 | Failures clear the cursor; an abort is ready with no message; others show the message or the fallback; a status that is not OK shows a truthy body `error` |
| FullEventsClient.AbortAfterRequestEnded | src/lib/use-chat-full-events.ts:400-405 | The controller is never released, so an abort after the request ended still makes the hook ready |
| FullEventsClient.AfterDoneOnlyTextLands | src/lib/use-chat-full-events.ts:121-133 | After `[DONE]` a custom event adds no part, while a text delta still lands in the assistant message |
| FullEventsClient.DoneEndsChunk | src/lib/use-chat-full-events.ts:332-336 | A `[DONE]` line makes the hook ready, clears the cursor and ends its chunk |
| FullEventsClient.ClearEventsKeepsText | src/lib/use-chat-full-events.ts:416-433 | Clearing the event parts loses no streamed text |
| FullEventsClient.ClearEventsIdempotent | src/lib/use-chat-full-events.ts:416-433 | A second clear changes nothing |
| FullEventsClient.WithoutEventPartsFilter | src/lib/use-chat-full-events.ts:431 | Clearing keeps exactly the parts whose type is not an event type |
| FullEventsClient.FullTaskOf | src/lib/use-chat-full-events.ts:465-511 | Error iff a truthy `isError`; completed iff a result without one; in progress iff no result, whatever the chat's status; never pending; the input item shows the pretty-printed args, and the last item is `String(result)` on error, the pretty-printed result on completion, `"Running..."` in progress, each with its data |
| FullEventsClient.FullTasksFollowCalls | src/lib/use-chat-full-events.ts:436-512 | One card per called id, in first-call order, from the last call and the last result after it |
| FullEventsClient.DispatchAddsNoCallPart | src/lib/use-chat-full-events.ts:339-380 | The stream never adds a tool-call part, as long as no payload has a `type` of its own |
| FullEventsClient.NoCallsNoTasks | src/lib/use-chat-full-events.ts:436-512 | Without a tool-call part there is no task card |
| FullEventsClient.RecordParts | src/lib/use-chat-full-events.ts:442-460 | The inner loop extends the tool map exactly as grouping the message's parts after the earlier ones |
| FullEventsClient.FullEventsSession.ExtractTaskParts | src/lib/use-chat-full-events.ts:436-512 | The loops compute the cards the lemmas above describe |
| FullEventsClient.FullEventsSession.SendMessage | src/lib/use-chat-full-events.ts:216-397 | The hook's state after a send, with every text part written from the request-wide `currentText` |
| FullEventsClient.FullEventsSession.ClearEvents | src/lib/use-chat-full-events.ts:416-433 | The state after clearing the event parts |
| Settings.HasApiKey | src/components/settings/use-settings.ts:79-91 | A provider has a key exactly when its key field is non-empty, the server placeholder included |
| Settings.HasAnyApiKey | src/components/settings/use-settings.ts:93-97 | Some key exactly when the Anthropic or the OpenAI key is present; the search key does not count |
| Settings.KeyForServer | src/lib/use-chat-full-events.ts:277-279 | A key the user typed is sent as is; the placeholder and the empty key become empty |
| Settings.TypedChangesOnlyItsField | src/components/settings/use-settings.ts:57-63 | A setter changes its field, turns off the server defaults and leaves everything else |
| Settings.ProviderSelectedKeepsKeys | src/components/settings/use-settings.ts:65-73 | A provider switch selects that provider's default model and keeps the keys, the base URL and the flag |
| Settings.DefaultsHoldNoKey | src/components/settings/use-settings.ts:42-50 | The reset state holds no key, follows the server and has its provider's default model |
| Settings.MergeKeys | src/components/settings/use-settings.ts:106-121 | User keys survive the merge; every other key becomes the placeholder exactly when the server holds it and empty otherwise; the base URL is the server's |
| Settings.MergedHasApiKey | src/components/settings/use-settings.ts:106-121 | After the merge a provider has a key exactly when the user typed one or the server holds one |
| Settings.ServerDefaultsMeaning | src/components/settings/use-settings.ts:109-120 | The store follows the server exactly when the request would send no key of its own and some key is a server placeholder |
| Settings.MergeIdempotent | src/components/settings/use-settings.ts:99-125 | Merging the same answer twice changes nothing more |
| Settings.RequestKeysAfterMerge | src/components/settings/use-settings.ts:106-121 | After the merge the request never carries the placeholder |
| Settings.SettingsStore.SetSelectedProvider | src/components/settings/use-settings.ts:65-73 | The store after a provider switch |
| Settings.SettingsStore.ResetSettings | src/components/settings/use-settings.ts:77 | The store holds the defaults |
| Settings.SettingsStore.InitializeFromServer | src/components/settings/use-settings.ts:99-125 | A failed request leaves the store as it was; a successful one merges the answer |
| ModelSelector.ProviderOf | src/components/settings/model-selector.tsx:84 | Anthropic exactly for ids with the `anthropic/` prefix, OpenAI for every other id |
| ModelSelector.TablesAgree | src/components/settings/model-selector.tsx:19-63 | Every listed id carries the prefix of the provider it is listed under |
| ModelSelector.DefaultModels | src/components/settings/model-selector.tsx:19-63 | Each default model belongs to its provider; the Anthropic one is listed, `openai/gpt-4.1` is not |
| ModelSelector.ModelChangedSelects | src/components/settings/model-selector.tsx:82-92 | The change ends with the chosen model and its provider, from any state; nothing else changes |
| ModelSelector.SameProviderOnlySelects | src/components/settings/model-selector.tsx:87-89 | Picking a model of the current provider only selects the model |
| ModelSelector.ListedModelSetsItsProvider | src/components/settings/model-selector.tsx:82-92 | Choosing a listed model sets the provider it is listed under |
| ModelSelector.ConsistencyKept | src/components/settings/model-selector.tsx:82-92 | Every store operation but a bare model selection keeps provider and model in step, and the handler restores it |
| ModelSelector.BareSelectionCanDisagree | src/components/settings/use-settings.ts:75 | A bare model selection can leave the provider behind |
| ModelSelector.HandleModelChange | src/components/settings/model-selector.tsx:82-92 | The store after the handler |
| JsMap.SetGet | src/lib/sandbox-manager.ts:28-35 | `set` keeps keys distinct and makes `get` answer the new value for its key and the old one elsewhere |
| JsMap.DeleteGet | src/lib/sandbox-manager.ts:68-71 | `delete` keeps keys distinct, removes its key and changes no other |
| JsMap.KeysListed | src/lib/sandbox-manager.ts:76-78 | The key listing holds exactly the present keys, each once |
| JsMap.DeleteKeys | src/lib/sandbox-manager.ts:68-71 | `delete` takes exactly its key out of the listing and keeps the order of the rest |
| SandboxManager.StoredLookups | src/lib/sandbox-manager.ts:28-35 | The instance is stored; its id only when non-empty, otherwise the old id stays; other keys are unaffected |
| SandboxManager.IdStoredLookups | src/lib/sandbox-manager.ts:54-56 | Storing an id touches only the id map |
| SandboxManager.HasSandboxListed | src/lib/sandbox-manager.ts:61-63 | A key is known exactly when either map lists it |
| SandboxManager.RemovedLookups | src/lib/sandbox-manager.ts:68-71 | Both maps lose the key and keep the others; the answer is whether an instance was stored, so an id alone answers false |
| SandboxManager.ActiveIdsAreIdKeys | src/lib/sandbox-manager.ts:76-78 | The listing holds exactly the keys with an id, once each, and not keys with only an instance |
| SandboxManager.DisposeErrorsAreFailures | src/lib/sandbox-manager.ts:83-93 | The logged keys are exactly those whose dispose throws, no more than there are instances |
| SandboxManager.SandboxRegistry.ClearAllE2BSandboxes | src/lib/sandbox-manager.ts:83-93 | Every failing dispose is logged in map order, and both maps end empty |
| SandboxManager.SandboxRegistry.RemoveE2BSandbox | src/lib/sandbox-manager.ts:68-71 | The registry and the answer after a removal; each map keeps its keys unique |
| SandboxManager.SandboxRegistry.SetE2BSandbox | src/lib/sandbox-manager.ts:28-35 | The registry after storing an instance; each map keeps its keys unique |
| SandboxManager.SandboxRegistry.SetE2BSandboxId | src/lib/sandbox-manager.ts:54-56 | The registry after storing an id; each map keeps its keys unique |
| ModelRoutes.ChosenKey | src/app/api/models/anthropic/route.ts:25 | The client's key when it is non-empty, the environment's otherwise; a key exists when either one does |
| ModelRoutes.CachedAfterSet | src/app/api/models/anthropic/route.ts:6-16 | A stored list is served for less than five minutes after it was stored and not later; other providers' entries answer as before |
| ModelRoutes.CacheExpiry | src/app/api/models/anthropic/route.ts:3-12 | An entry exactly five minutes old is a miss, one a millisecond younger a hit, and an empty cache a miss |
| ModelRoutes.NoKeyBeforeCache | src/app/api/models/anthropic/route.ts:27-32 | Without a key the answer is 400 with no models, whatever the cache holds |
| ModelRoutes.CacheHitIgnoresKey | src/app/api/models/anthropic/route.ts:35-38 | While fresh, every key gets the same cached list and the upstream is not asked |
| ModelRoutes.CacheWrittenOnSuccess | src/app/api/models/anthropic/route.ts:40-81 | The cache changes only when a list was fetched and transformed, and then holds the list answered, stamped when the fetch completed; failures carry no models |
| ModelRoutes.FetchedListIsServedNext | src/app/api/models/anthropic/route.ts:65-73 | A fetched list is answered and is what the next request within five minutes gets, for any key |
| ModelRoutes.UpstreamErrors | src/app/api/models/anthropic/route.ts:48-60 | Upstream 401 becomes the route's 401; any other failing status is passed on with its body text |
| ModelRoutes.ModelCache.SetCachedModels | src/app/api/models/anthropic/route.ts:14-16 | Stores the list and its time under the provider, replacing any older entry, and keeps one entry per provider (`Valid`) |
| ModelRoutes.ModelCache.GetCachedModels | src/app/api/models/anthropic/route.ts:6-12 | The entry's list while it is younger than five minutes, nothing otherwise |
| AnthropicModelsRoute.VersionDoubledAsWritten | src/app/api/models/anthropic/route.ts:22-40 | As written, the request goes to `/v1/v1/models`, not the models endpoint (a Findings row) |
| AnthropicModelsRoute.ModelsUrlIsEndpoint | src/app/api/models/anthropic/route.ts:22-40 | The corrected URL is the origin's `/v1/models?limit=100` |
| AnthropicModelsRoute.ToListed | src/app/api/models/anthropic/route.ts:65-69 | The id is the upstream id behind `anthropic/`; the name is the display name when truthy, the id otherwise |
| AnthropicModelsRoute.ListModels | src/app/api/models/anthropic/route.ts:65-69 | Fails exactly when an element is nullish; otherwise one listed model per element, in order |
| AnthropicModelsRoute.TransformKeepsOrder | src/app/api/models/anthropic/route.ts:63-69 | A body whose `data` is an array of models gives one listed model per element in order; anything else fails |
| AnthropicModelsRoute.HandleGet | src/app/api/models/anthropic/route.ts:18-82 | The route's answer and cache are those of the shared ladder, with Anthropic's texts and transform, fetching the URL as the route builds it (`/v1/v1/models`) |
| OpenaiModelsRoute.ToListed | src/app/api/models/openai/route.ts:65-69 | The id is the upstream id behind `openai/`, the name is the id |
| OpenaiModelsRoute.GptModelsDefined | src/app/api/models/openai/route.ts:63-64 | The filter fails exactly when the test throws for some element |
| OpenaiModelsRoute.GptModelsAppend | src/app/api/models/openai/route.ts:63-64 | Filtering a concatenation filters each part, in order |
| OpenaiModelsRoute.GptModelsSingle | src/app/api/models/openai/route.ts:64 | One element is kept exactly when its id includes `gpt` |
| OpenaiModelsRoute.GptModelsMembers | src/app/api/models/openai/route.ts:63-64 | The kept elements are exactly the elements whose id includes `gpt` |
| OpenaiModelsRoute.TransformListsGptModels | src/app/api/models/openai/route.ts:63-69 | Every listed model comes from an upstream element whose id includes `gpt`, carries the prefix, and its id includes `gpt`, whether the upstream id is a string or an array holding `"gpt"` (joined by `String(...)`) |
| OpenaiModelsRoute.HandleGet | src/app/api/models/openai/route.ts:18-82 | The route's answer and cache are those of the shared ladder, with OpenAI's texts, URL and transform |

## Left out

- React state updates are applied in order and at once. Batching, and updater closures that read a ref later, are not modelled.
- The request bodies the hooks send (message history, keys, model) are not modelled. The only part modelled is the key translation, `Settings.KeyForServer`.
- The request validation and message conversion in `createFullEventsHandler` (lines 80-126) are left out. The model starts at the agent's event stream.
- `JSON.stringify` and `JSON.parse` are parameters, so `undefined` and cyclic values follow whatever the parameter does. Numbers are integers; floating point and `NaN` are not modelled.
- `StepAboveOne` compares a step number the way the model's integers do. JavaScript's comparison of a numeric string with a number is not modelled.
- Objects keep their keys in insertion order. JavaScript's ordering of integer-like keys first is not modelled.
- The module-level event counter is a constructor argument of `ChatApiSession`. Separate hook instances sharing it are not modelled.
- Tool-call ids are compared as `Json` values. Two distinct objects with the same contents compare equal here but differ in JavaScript.
- The file refresh is only counted (how many started). Its request and the file listing it shows are not modelled.
- Console logging of unparsable lines is not modelled. `clearAllE2BSandboxes` returns its error log as a list of keys.
- The settings store's persistence to local storage is not modelled.
- The `/api/config` answer is a record of typed fields. A missing or ill-typed field in it is not modelled.
- The routes pass a failing upstream status through as is. Whether the response framework accepts that status is not modelled.
- The request headers of the upstream fetches (key header, API version) are not modelled.
- `dispose()` is awaited in the source. It is modelled as a call that either throws or returns; concurrent disposal is not modelled.
- The clocks (`Date.now()`) are parameters, so the message ids' randomness and the cache timing come from outside.
- The UI components that render events, and the rest of the application, are not part of this model.
- `ChatApi.KeptTodos` ensures only a bound on its length. Its meaning is proved separately, in `ChatApi.KeptTodosFilter`.
- `SandboxManager.SandboxRegistry.GetE2BSandbox`, `GetE2BSandboxId`, `HasE2BSandbox` and `GetActiveE2BSandboxIds` are read-only functions of the registry. Their properties are the lemmas on `JsMap` and `SandboxManager` above.

## Findings

| source | as written | input that shows it | evidently intended | confidence | as-written member | corrected member |
|---|---|---|---|---|---|---|
| src/lib/create-full-events-handler.ts:202-217 | A `text` event that opens a span writes `text-start` and returns; its text goes into no chunk | agent events `text("Hello")`, `done` give `text-start`, `text-end`, `finish`, with no delta | the opening event's text is written as the span's first `text-delta` | not executed; high (the client reads text only from deltas) | EventMapper.FirstTextDroppedAsWritten | EventMapper.DeltasAreTexts |
| src/lib/use-chat-full-events.ts:320,344,361-364 | `currentText` gathers every delta of the request, and a new text part after another part is given all of it | deltas "A", then a custom event's part, then delta "B" give parts `[A, part, AB]` | the new text part holds "B" only, as in the basic hook | not executed; medium | FullEventsClient.TextRepeatsAfterOtherPart | FullEventsClient.TextOnceAfterOtherPart |
| src/app/api/models/anthropic/route.ts:22,40 | The base URL already ends in `/v1` and the path adds `/v1/models` | any request that misses the cache fetches `https://api.anthropic.com/v1/v1/models?limit=100` | `https://api.anthropic.com/v1/models?limit=100` | not executed; high | AnthropicModelsRoute.VersionDoubledAsWritten | AnthropicModelsRoute.ModelsUrlIsEndpoint |
