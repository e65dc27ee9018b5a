# Neuro-Simulator core, modelled in Dafny

Neuro-Simulator runs a simulated live stream. An AI performer ("Neuro") reads
chat from a simulated audience and answers by calling tools. Its main tool is
`speak`, which turns text into speech. An audience chatbot writes the chat.
A coordinator runs the stream's phases and pushes every event to the clients
over websockets. A small "Vedal Studio" service owns the shared configuration
and tells modules when their section changes.

This project models the parts of that system where the logic lives:

- the chat queue with its three priority tiers and random sampling;
- the performer's response cycle, with its speech timer and greeting;
- the stream coordinator's start, stop and client snapshot;
- the agent's three-part memory store and the four tools that edit it;
- the text rendering of memory for prompts;
- the streaming JSON parser that pulls tool calls out of the LLM's output;
- the websocket handler of the Neuro-Sama service;
- the output packs both agents emit;
- the chatbot's tool-call parsing and execution;
- the speak tool's keyword filter;
- the Neuro-Sama configuration constructor;
- the Studio's config validation, change detection and schema generation;
- these pieces of the web server: the API token check, the audience-chat
  parser, the log endpoint and the config-update filter.

Things outside the program become parameters:

- `json.loads` is `loads: string -> Option<Json>`;
- speech synthesis is `tts`, or a `TtsOutcome` value;
- `random` is a sequence of rolls or a pick function;
- clocks are `now: real`;
- a file write is `saveOk: bool`: a failed write changes nothing.

Python dicts are ordered association lists (module `Dict`). JSON values,
Python truthiness and `==` are in module `Json`. String helpers are in
`Text`: `find`/`rfind`, `split`/`join`, `strip`, ASCII `lower`, and decimal
rendering.

Objects whose methods update fields are classes. These are the queue manager,
the neuro loop, the stream manager, the memory manager, the streaming parser,
the agent output manager and the websocket session. Each of their methods
states its complete new state. The parser's `_find_next_json_start` and
`_find_matching_bracket_end` loops are methods with invariants. Each is
proved equal to a recursive specification. The same holds for:

- the removal loop of `get_content`;
- the block-id search of `create_core_memory_block`;
- the service search of the config constructor;
- the object-handling loop of the websocket handler;
- the line loop of the audience-chat parser.

## Model

| member | source | states |
|---|---|---|
| ChatQueue.QueueManager.constructor | server/neuro_simulator/services/stream/queue_manager.py:25-34 | all three tiers start empty and the highlighted timer at 0 |
| ChatQueue.QueueManager.AddChat | server/neuro_simulator/services/stream/queue_manager.py:36-40 | the chat joins the back of the ordinary tier; the other tiers and the timer are untouched |
| ChatQueue.QueueManager.AddHighlightMessage | server/neuro_simulator/services/stream/queue_manager.py:42-45 | the message joins the back of the highlight tier only |
| ChatQueue.QueueManager.AddHighlightedMessage | server/neuro_simulator/services/stream/queue_manager.py:47-50 | the message joins the back of the highlighted tier only |
| ChatQueue.QueueManager.GetContent | server/neuro_simulator/services/stream/queue_manager.py:52-110 | the fetch and the new tiers are exactly what Serve gives for the old tiers |
| ChatQueue.SampleSize | server/neuro_simulator/services/stream/queue_manager.py:85-96 | the size is the caller's, else the configured one, else 10, capped by the number of queued chats |
| ChatQueue.Sample | server/neuro_simulator/services/stream/queue_manager.py:99 | a sample has exactly `k` chats drawn without replacement (a sub-multiset of the pool) |
| ChatQueue.SampleReachesEverySelection | server/neuro_simulator/services/stream/queue_manager.py:99 | every ordered choice of distinct positions is the sample of some rolls, so no selection is unreachable |
| ChatQueue.SampleFirst | server/neuro_simulator/services/stream/queue_manager.py:99 | a first roll `i` draws `pool[i]`, and the rest is a sample of the pool without it |
| ChatQueue.PickShift | server/neuro_simulator/services/stream/queue_manager.py:99 | removing one element and renumbering the other positions picks the same chats |
| ChatQueue.RemoveFirst | server/neuro_simulator/services/stream/queue_manager.py:102-107 | `deque.remove` drops exactly one copy of the first equal chat and keeps the others in order, or changes nothing when the chat is absent |
| ChatQueue.QueueManager.RemoveSelected | server/neuro_simulator/services/stream/queue_manager.py:102-107 | the deque becomes RemoveAll of the selection, in order; removing a sub-multiset leaves exactly the difference, shorter by the number removed |
| ChatQueue.RemoveAll | server/neuro_simulator/services/stream/queue_manager.py:102-107 | removing chats in turn never lengthens the deque |
| ChatQueue.RemoveAllTakesSelection | server/neuro_simulator/services/stream/queue_manager.py:102-107 | removing chats that are all present takes out exactly those chats (as a multiset) and shortens the deque by their number |
| ChatQueue.Serve | server/neuro_simulator/services/stream/queue_manager.py:52-110 | strict tier priority: a highlighted message once more than 10 s have passed (timer reset), else one highlight, else a random sample of the chats. The sampled chats leave the deque by RemoveAll, in order. A negative sample size is the `ValueError` of `random.sample` and changes nothing. Every other tier is untouched |
| ChatQueue.Brief | server/neuro_simulator/services/stream/queue_manager.py:61-67 | a highlighted message is served as only its username and text |
| ChatQueue.QueueManager.ClearChatQueue | server/neuro_simulator/services/stream/queue_manager.py:112-115 | only the ordinary tier empties |
| ChatQueue.QueueManager.ClearHighlightQueue | server/neuro_simulator/services/stream/queue_manager.py:117-120 | only the highlight tier empties |
| ChatQueue.QueueManager.ClearHighlightedMessageQueue | server/neuro_simulator/services/stream/queue_manager.py:122-125 | only the highlighted tier empties |
| ChatQueue.QueueManager.GetChatQueueSize | server/neuro_simulator/services/stream/queue_manager.py:127-130 | the size is the ordinary tier's length |
| ChatQueue.QueueManager.GetHighlightQueueSize | server/neuro_simulator/services/stream/queue_manager.py:132-135 | the size is the highlight tier's length |
| ChatQueue.QueueManager.GetHighlightedMessageQueueSize | server/neuro_simulator/services/stream/queue_manager.py:137-139 | the size is the highlighted tier's length |
| NeuroLoop.Decay | server/neuro_simulator/services/stream/neuro_loop.py:128-132 | the speech timer never goes negative or grows, and a clock going backwards does not move it. It is never less than the old timer minus the elapsed time, and any positive result equals exactly that, so the result is that difference floored at zero |
| NeuroLoop.AddSpeech | server/neuro_simulator/services/stream/neuro_loop.py:60-79 | after a speech of `d` seconds the timer covers at least `d` plus the 0.5 s margin. Once the timer has been updated, it lies between the decayed timer (Decay) plus `d` and that plus the margin, so the new speech is added to what is left rather than replacing it. Before the first update the decay is skipped and the old timer, `d` and the margin are summed |
| NeuroLoop.SleepTime | server/neuro_simulator/services/stream/neuro_loop.py:134-141 | the wait while speech plays is the remaining time clamped to [0.01, 0.5] s |
| NeuroLoop.CooldownRange | server/neuro_simulator/services/stream/neuro_loop.py:150-156 | a cooldown is drawn only when the settings hold at least two bounds |
| NeuroLoop.Compose | server/neuro_simulator/services/stream/neuro_loop.py:168-186 | a batch is never empty. An empty fetch gives the idle prompt alone. A first non-empty fetch gets the greeting in front. The greeted flag is set exactly once chats were seen |
| NeuroLoop.GreetingAtMostOnce | server/neuro_simulator/services/stream/neuro_loop.py:168-177 | once greeted, batches are the fetched chats or the idle prompt alone |
| NeuroLoop.IdleNeverGreets | server/neuro_simulator/services/stream/neuro_loop.py:180-186 | an empty fetch never carries the greeting and uses the default idle prompt when none is configured |
| NeuroLoop.NeuroLoop.constructor | server/neuro_simulator/services/stream/neuro_loop.py:25-36 | not running, not busy, zero timer, no tasks, not greeted |
| NeuroLoop.NeuroLoop.OutputCallback | server/neuro_simulator/services/stream/neuro_loop.py:44-82 | only a speak pack with a numeric duration extends the timer (via AddSpeech) and marks the performer busy. A non-dict payload or a non-numeric duration raises, and nothing else changes |
| NeuroLoop.NeuroLoop.Start | server/neuro_simulator/services/stream/neuro_loop.py:84-94 | starting twice does not add a second cycle task |
| NeuroLoop.NeuroLoop.Stop | server/neuro_simulator/services/stream/neuro_loop.py:96-111 | stopped, no tasks, not busy, an empty timer restarted at `now` |
| NeuroLoop.NeuroLoop.Tick | server/neuro_simulator/services/stream/neuro_loop.py:115-201 | one cycle pass. It exits when stopped and waits before the live phase, with the queue unchanged. While speech plays it sleeps SleepTime of the decayed timer and stays busy. Otherwise it is not busy: the queue becomes what Serve gives for the old queue, at the clock read after the post-speech cooldown, with the configured sample size, and the agent gets Compose's batch of exactly the served chats, or it backs off exactly when Serve reports the sampling error |
| StreamManager.StreamManager.constructor | server/neuro_simulator/services/stream/stream_manager.py:24-38 | offline, not running, empty queue, nothing broadcast |
| StreamManager.StreamManager.ResetStreamState | server/neuro_simulator/services/stream/stream_manager.py:46-53 | the client-visible state returns to its start values with the start time `now`; running state and broadcasts are kept |
| StreamManager.StreamManager.InitialStateForClient | server/neuro_simulator/services/stream/stream_manager.py:57-81 | a `stream_state_sync` message with the five state fields and the current phase |
| StreamManager.InitialStateIgnoresConfig | server/neuro_simulator/services/stream/stream_manager.py:57-81 | the snapshot is the same whether or not settings are loaded |
| StreamManager.StreamManager.GetStatus | server/neuro_simulator/services/stream/stream_manager.py:98-103 | the backend status is "running" exactly when the stream runs and "stopped" exactly when it does not |
| StreamManager.ChatbotChat | server/neuro_simulator/services/stream/stream_manager.py:110-122 | only a `chat_message` pack with a dict payload and truthy text yields a chat; the username defaults to "Chatbot" |
| StreamManager.ChatbotChatComplete | server/neuro_simulator/services/stream/stream_manager.py:110-122 | every such pack does yield its chat, so no chatbot message with text is lost |
| StreamManager.StreamManager.ChatbotOutputCallback | server/neuro_simulator/services/stream/stream_manager.py:110-122 | every pack is broadcast once; the ordinary tier gains exactly the ChatbotChat of the pack and the other tiers are untouched |
| StreamManager.StreamManager.StartStream | server/neuro_simulator/services/stream/stream_manager.py:124-232 | a second start changes nothing in the manager or its queue. A first start empties all three tiers and keeps the highlighted-message clock. It resets the client state and starts one fresh performer loop with one task, an empty timer and no greeting sent. It enters the live phase and broadcasts exactly the phase messages and the "running" status |
| StreamManager.StreamManager.Launch | server/neuro_simulator/services/stream/stream_manager.py:132-232 | from a stopped stream: all three tiers emptied with the highlighted-message clock kept, the client state reset, one fresh performer loop running with one task, an empty timer and no greeting sent, the live phase entered, and exactly the phase messages and the "running" status broadcast |
| StreamManager.PhaseMessages | server/neuro_simulator/services/stream/stream_manager.py:202-221 | three messages: the welcome video, the avatar intro at the video's length, and the live phase at the video's length plus the intro |
| StreamManager.StreamManager.EnterLivePhase | server/neuro_simulator/services/stream/stream_manager.py:202-232 | the live event is set; exactly the phase messages and then the status are broadcast |
| StreamManager.StreamManager.StopStream | server/neuro_simulator/services/stream/stream_manager.py:234-261 | stopping a stopped stream changes nothing in the manager or its performer loop. Otherwise the stream and its performer loop stop with no tasks left. The loop is not busy and its timer is empty and restarted at `now`. The client state is kept, and exactly the "stopped" status is broadcast |
| StreamManager.StreamManager.AddChat | server/neuro_simulator/services/stream/stream_manager.py:265-267 | forwarded unchanged to the ordinary tier |
| StreamManager.StreamManager.AddHighlightMessage | server/neuro_simulator/services/stream/stream_manager.py:269-271 | forwarded unchanged to the highlight tier |
| StreamManager.StreamManager.AddHighlightedMessage | server/neuro_simulator/services/stream/stream_manager.py:273-274 | forwarded unchanged to the highlighted tier |
| MemoryManager.MemoryManager.constructor | server/neuro_simulator/neuro_sama/memory_manager.py:11-13 | over missing files all three memories read as empty |
| MemoryManager.MemoryManager.UpdateInitMemory | server/neuro_simulator/neuro_sama/memory_manager.py:38-48 | the result is the write's success; the whole init dict is replaced only on success |
| MemoryManager.MemoryManager.UpdateInitMemoryItem | server/neuro_simulator/neuro_sama/memory_manager.py:50-54 | on success the dict is the old one with the key set: an existing key keeps its place and a new key goes last, and every other key reads as before |
| MemoryManager.MemoryManager.DeleteInitMemoryKey | server/neuro_simulator/neuro_sama/memory_manager.py:56-64 | an absent key gives false with nothing written; on success a present key goes away and the others remain in their order |
| Dict.RemoveAt | server/neuro_simulator/neuro_sama/memory_manager.py:60 | in a dict with unique keys, `del d[k]` takes out exactly the one entry of `k` and keeps every other entry in its order |
| MemoryManager.MemoryManager.GetCoreMemoryBlock | server/neuro_simulator/neuro_sama/memory_manager.py:75-78 | a block is found exactly when its id is stored |
| MemoryManager.BaseId | server/neuro_simulator/neuro_sama/memory_manager.py:85 | the base id has the title's length and no spaces, dashes or capitals |
| MemoryManager.CandidateInjective | server/neuro_simulator/neuro_sama/memory_manager.py:88-91 | the candidates `base`, `base_1`, `base_2`, ... are pairwise distinct |
| MemoryManager.UniqueBlockId | server/neuro_simulator/neuro_sama/memory_manager.py:85-91 | the id is the first candidate not yet stored, so it is fresh and every earlier candidate was taken |
| MemoryManager.MemoryManager.CreateCoreMemoryBlock | server/neuro_simulator/neuro_sama/memory_manager.py:80-107 | a fresh id (the first free candidate) is returned. On success the block is appended under it and every other block is unchanged |
| MemoryManager.MemoryManager.UpdateCoreMemoryBlock | server/neuro_simulator/neuro_sama/memory_manager.py:109-132 | true exactly when the block exists. On success the block dict is the old one with that key set to the block with the given fields replaced, so the key order is kept and other blocks are unchanged |
| MemoryManager.MemoryManager.DeleteCoreMemoryBlock | server/neuro_simulator/neuro_sama/memory_manager.py:134-142 | true exactly when the block existed; on success it is gone and every other block is unchanged and keeps its place |
| MemoryManager.MemoryManager.AddToCoreMemoryBlock | server/neuro_simulator/neuro_sama/memory_manager.py:144-155 | true exactly when the block exists and lacks the item; the block dict is then the old one with the item appended to that block |
| MemoryManager.PyIndex | server/neuro_simulator/neuro_sama/memory_manager.py:165 | `list.index` is the first position holding an equal value |
| MemoryManager.MemoryManager.RemoveFromCoreMemoryBlock | server/neuro_simulator/neuro_sama/memory_manager.py:157-168 | true exactly when the block holds the item; the first equal item is removed, the block keeps its place among the keys, and nothing else changes |
| MemoryManager.RandomId | server/neuro_simulator/neuro_sama/memory_manager.py:202 | a temp id is 6 characters from lowercase letters and digits |
| MemoryManager.KeepLast | server/neuro_simulator/neuro_sama/memory_manager.py:215-216 | at most 20 entries are kept, and they are the newest ones |
| MemoryManager.MemoryManager.AddTempMemory | server/neuro_simulator/neuro_sama/memory_manager.py:193-219 | on success the new entry is last, the list is the newest 20, and the result is the write's success |
| MemoryManager.WithoutId | server/neuro_simulator/neuro_sama/memory_manager.py:226 | no kept entry has the id, every entry without it is kept, the result is a subsequence of the list, and the length is unchanged exactly when no entry has the id |
| MemoryManager.WithoutIdCount | server/neuro_simulator/neuro_sama/memory_manager.py:226 | each entry without the id occurs in the result exactly as often as in the list, and no entry with the id occurs at all |
| MemoryManager.WithoutIdAppend | server/neuro_simulator/neuro_sama/memory_manager.py:226 | the filter distributes over concatenation, so it works entry by entry and keeps the order |
| MemoryManager.WithoutIdSingle | server/neuro_simulator/neuro_sama/memory_manager.py:226 | a single entry is dropped exactly when it carries the id |
| MemoryManager.MemoryManager.DeleteTempMemoryItem | server/neuro_simulator/neuro_sama/memory_manager.py:221-230 | true exactly when an entry had the id and the write succeeded; the entries are then WithoutId |
| MemoryManager.MemoryManager.ClearTempMemory | server/neuro_simulator/neuro_sama/memory_manager.py:232-234 | on success the temp memory is empty; init and core memory are untouched |
| MemoryManager.MemoryManager.SaveTempMemory | server/neuro_simulator/neuro_sama/memory_manager.py:236-245 | the list is stored exactly when the write succeeds |
| MemoryTools.EditCoreMemoryBlockContent | server/neuro_simulator/neuro_sama/tools/edit_core_memory_block_content.py:45-79 | a missing argument raises ValueError and an unhashable id raises TypeError. A missing block or content gives its error status. Otherwise the result is success and, when the write succeeds, the block dict is the old one with that block's first equal item replaced; nothing changes otherwise |
| MemoryTools.EditCoreMemoryBlockContentParameters | server/neuro_simulator/neuro_sama/tools/edit_core_memory_block_content.py:23-43 | three required string parameters, in order |
| MemoryTools.AddToCoreMemoryBlock | server/neuro_simulator/neuro_sama/tools/add_to_core_memory_block.py:39-53 | falsy arguments raise. Success exactly when the block exists and lacks the item; when the write succeeds the block dict is the old one with the item appended to that block, and nothing changes otherwise |
| MemoryTools.AddToCoreMemoryBlockParameters | server/neuro_simulator/neuro_sama/tools/add_to_core_memory_block.py:23-37 | both parameters required |
| MemoryTools.AddTempMemory | server/neuro_simulator/neuro_sama/tools/add_temp_memory.py:42-57 | raises exactly for content that is not a non-empty string; the role defaults to "assistant"; on success the entry is the newest kept |
| MemoryTools.AddTempMemoryParameters | server/neuro_simulator/neuro_sama/tools/add_temp_memory.py:26-40 | `content` required, `role` optional |
| MemoryTools.DeleteTempMemoryItem | server/neuro_simulator/neuro_sama/tools/delete_temp_memory_item.py:33-44 | a falsy id raises; success exactly when an entry had the id and the write succeeded |
| MemoryTools.DeleteTempMemoryItemParameters | server/neuro_simulator/neuro_sama/tools/delete_temp_memory_item.py:23-31 | one required parameter, `item_id` |
| ContextBuilder.FormatCoreMemory | server/neuro_simulator/neuro_sama/context_builder.py:19-36 | "Not set." exactly when there are no blocks |
| ContextBuilder.BlockLines | server/neuro_simulator/neuro_sama/context_builder.py:26-34 | a block renders as title and id, description, a "Content:" header, then one bullet per item (an empty line when there are none) |
| ContextBuilder.CoreMemoryReadBack | server/neuro_simulator/neuro_sama/context_builder.py:19-36 | with one-line fields, splitting the text on newlines gives every block's lines, block after block |
| ContextBuilder.SectionsAreLines | server/neuro_simulator/neuro_sama/context_builder.py:19-36 | joining the block sections equals joining all their lines |
| ContextBuilder.FormatInitMemory | server/neuro_simulator/neuro_sama/context_builder.py:38-44 | "Not set." exactly when the init memory is empty |
| ContextBuilder.InitMemoryReadBack | server/neuro_simulator/neuro_sama/context_builder.py:38-44 | the init text reads back as one `key: value` line per key, in order |
| ContextBuilder.FormatTempMemory | server/neuro_simulator/neuro_sama/context_builder.py:46-55 | "Empty." exactly when there are no entries |
| ContextBuilder.TempMemoryReadBack | server/neuro_simulator/neuro_sama/context_builder.py:46-55 | the temp text reads back as one line per entry, in order |
| ContextBuilder.TempLine | server/neuro_simulator/neuro_sama/context_builder.py:52-55 | every temp line opens with `[` |
| ContextBuilder.MissingIdShown | server/neuro_simulator/neuro_sama/context_builder.py:52-55 | for every entry without an id, the line is `[role | ID: N/A] ` followed by the content |
| ContextBuilder.FormatUserMessages | server/neuro_simulator/neuro_sama/context_builder.py:57-62 | "No recent messages." exactly when there are none |
| ContextBuilder.UserMessagesReadBack | server/neuro_simulator/neuro_sama/context_builder.py:57-62 | the messages read back as one `user: content` line each, oldest first |
| ContextBuilder.FormatToolDescriptions | server/neuro_simulator/neuro_sama/context_builder.py:64-82 | "No tools available." exactly when there are no tools, otherwise a text starting "Available tools:" |
| ContextBuilder.ToolDescriptionsReadBack | server/neuro_simulator/neuro_sama/context_builder.py:64-82 | a header line then exactly one numbered line per tool |
| ContextBuilder.ToolEntryOneLine | server/neuro_simulator/neuro_sama/context_builder.py:71-81 | a tool built from one-line parts renders as one line |
| StreamParser.NextStart | server/neuro_simulator/neuro_sama/json_stream_parser.py:48-69 | the result is the first `{` outside quotes and not escaped, or -1 when there is none |
| StreamParser.FindNextJsonStart | server/neuro_simulator/neuro_sama/json_stream_parser.py:48-69 | the loop returns NextStart, and the position holds `{` |
| StreamParser.MatchEnd | server/neuro_simulator/neuro_sama/json_stream_parser.py:71-101 | the result is the first unquoted `}` that brings the depth back to zero, or -1 |
| StreamParser.FindMatchingBracketEnd | server/neuro_simulator/neuro_sama/json_stream_parser.py:71-101 | the loop returns MatchEnd, and the position holds `}` |
| StreamParser.Step | server/neuro_simulator/neuro_sama/json_stream_parser.py:19-46 | one loop round emits a decoded candidate or skips past an undecodable one. It stops exactly when no complete candidate is left, and every round that does not stop shortens the buffer |
| StreamParser.ScanLeavesSuffix | server/neuro_simulator/neuro_sama/json_stream_parser.py:19-46 | the buffer kept is a suffix of the text seen |
| StreamParser.ScanStopsAtIncomplete | server/neuro_simulator/neuro_sama/json_stream_parser.py:19-46 | what is left holds no complete candidate object |
| StreamParser.CompleteThenIncomplete | server/neuro_simulator/neuro_sama/json_stream_parser.py:13-46 | one complete object followed by an incomplete one: the first is returned, the second stays buffered |
| StreamParser.NextStartAppend | server/neuro_simulator/neuro_sama/json_stream_parser.py:48-69 | more text never moves a start already found |
| StreamParser.MatchEndAppend | server/neuro_simulator/neuro_sama/json_stream_parser.py:71-101 | more text never moves a matching end already found |
| StreamParser.StepAppend | server/neuro_simulator/neuro_sama/json_stream_parser.py:19-46 | a round that does not stop acts the same with more text appended |
| StreamParser.ScanSplit | server/neuro_simulator/neuro_sama/json_stream_parser.py:13-46 | scanning `a` then scanning the rest plus `b` gives the objects of scanning `a + b`, and the same buffer |
| StreamParser.StreamingJsonParser.constructor | server/neuro_simulator/neuro_sama/json_stream_parser.py:10-11 | the buffer starts empty |
| StreamParser.StreamingJsonParser.Feed | server/neuro_simulator/neuro_sama/json_stream_parser.py:13-46 | `feed` returns the Scan of the old buffer plus the chunk and keeps its rest |
| StreamParser.StreamingJsonParser.Reset | server/neuro_simulator/neuro_sama/json_stream_parser.py:107-108 | the buffer is empty |
| StreamParser.FeedTwiceIsFeedOnce | server/neuro_simulator/neuro_sama/json_stream_parser.py:13-46 | two `feed` calls return what one call with the joined chunks returns: chunk boundaries do not matter |
| NeuroSamaApi.ParseJsonResponse | server/neuro_simulator/neuro_sama/api.py:25-43 | a `[`...`]` slice is decoded and a non-list wrapped. Otherwise the stripped text is decoded and a dict wrapped. A decode error gives `[]` |
| NeuroSamaApi.ArrayRepliesAgree | server/neuro_simulator/neuro_sama/api.py:25-43 | the array branch uses the same slice as the chatbot's parser, and the two parsers agree on it |
| NeuroSamaApi.ScalarReplyUnwrapped | server/neuro_simulator/neuro_sama/api.py:40-41 | a reply with no `[` that decodes to a scalar comes back unwrapped |
| NeuroSamaApi.ToolParams | server/neuro_simulator/neuro_sama/api.py:52 | the arguments are `params` if truthy, else `parameters`, else `{}` |
| NeuroSamaApi.SpokenText | server/neuro_simulator/neuro_sama/api.py:64-69 | a text is spoken exactly when `text` is a non-empty string |
| NeuroSamaApi.ExecuteToolAndGetOutputPack | server/neuro_simulator/neuro_sama/api.py:46-92 | a pack exactly for a registered `speak` call with non-empty text. The pack carries the synthesized audio, or none and duration 0 when synthesis fails. Only an unhashable name raises (TypeError) and everything else gives no pack |
| NeuroSamaApi.OnlySpeakYieldsPacks | server/neuro_simulator/neuro_sama/api.py:46-92 | every other tool name gives no pack |
| NeuroSamaApi.Replayed | server/neuro_simulator/neuro_sama/api.py:168-176 | handling objects in order only adds packs, at most one per object |
| NeuroSamaApi.SendPacks | server/neuro_simulator/neuro_sama/api.py:168-176 | the loop sends what Replayed specifies and stops at the first exception |
| NeuroSamaApi.BusyError | server/neuro_simulator/neuro_sama/api.py:116-121 | an "error" message with the busy text |
| NeuroSamaApi.Server.constructor | server/neuro_simulator/neuro_sama/api.py:22 | the shared flag starts cleared |
| NeuroSamaApi.IdleScan | server/neuro_simulator/neuro_sama/api.py:157-176 | a buffer with no candidate object yields nothing and is kept |
| NeuroSamaApi.Session.constructor | server/neuro_simulator/neuro_sama/api.py:102-106 | no messages yet and a fresh empty parser |
| NeuroSamaApi.Session.Remember | server/neuro_simulator/neuro_sama/api.py:127-138 | the message is recorded; the window holds the last 20 messages with the new one last |
| NeuroSamaApi.Session.Stream | server/neuro_simulator/neuro_sama/api.py:157-176 | streaming the chunks sends exactly what Replayed of one Scan over all text specifies, and leaves the parser idle |
| NeuroSamaApi.Session.HandleMessage | server/neuro_simulator/neuro_sama/api.py:95-200 | while busy, the message is refused with BusyError and nothing changes. Otherwise the flag is always released. A non-dict message ends the connection. A dict is remembered as the last of at most 20 recent messages, with `user` (default "user") as the sender and `content` (default "") as the text; its reply's packs are sent, then the completion marker unless a tool raised |
| OutputPacks.CreateOutputPack | server/neuro_simulator/neuro_sama/output_manager.py:11-31 | `type` and `payload`, plus `input` exactly when the input data is truthy |
| OutputPacks.SpeakPayload | server/neuro_simulator/neuro_sama/output_manager.py:34-41 | a speak payload always has text, audio and duration, in that order |
| OutputPacks.CreateSpeakOutput | server/neuro_simulator/neuro_sama/output_manager.py:34-41 | a "speak" pack carrying that payload |
| OutputPacks.CreateCompletionOutput | server/neuro_simulator/neuro_sama/output_manager.py:44-49 | a "completion" pack with the fixed message |
| OutputPacks.CreateErrorOutput | server/neuro_simulator/neuro_sama/output_manager.py:52-57 | an "error" pack whose payload is exactly the message |
| OutputPacks.CreateInfoOutput | server/neuro_simulator/neuro_sama/output_manager.py:60-66 | an "info" pack; the raw response is attached only when truthy |
| AgentOutput.Metadata | server/neuro_simulator/agents/output_manager.py:50-53 | the metadata names the agent and the source tool |
| AgentOutput.Pack | server/neuro_simulator/agents/output_manager.py:46-54 | every pack has type, the caller's timestamp, payload and metadata |
| AgentOutput.SpeakPayload | server/neuro_simulator/agents/output_manager.py:38-44 | text is always present; audio and duration only when truthy |
| AgentOutput.SpeakPack | server/neuro_simulator/agents/output_manager.py:29-56 | a "speak" pack from the speak tool with that payload |
| AgentOutput.ModelPack | server/neuro_simulator/agents/output_manager.py:58-77 | a "model_action" pack whose action is also its source tool |
| AgentOutput.CustomPack | server/neuro_simulator/agents/output_manager.py:79-97 | type and payload pass through and the source tool is "custom" |
| AgentOutput.OutputManager.constructor | server/neuro_simulator/agents/output_manager.py:17-27 | an unbounded empty queue, nothing delivered |
| AgentOutput.Offer | server/neuro_simulator/agents/output_manager.py:99-121 | `put_nowait` ends the queue with the pack after a suffix of the old queue; the queue grows by one exactly when it is unbounded or not full, and a bounded queue stays within its capacity |
| AgentOutput.OfferAll | server/neuro_simulator/agents/output_manager.py:99-121 | offering packs in turn to an unbounded queue appends them all, in order |
| AgentOutput.OutputManager.SendOutput | server/neuro_simulator/agents/output_manager.py:99-121 | the pack goes to the callback when there is one, and the queue becomes Offer of the old queue: the pack ends it and a full queue drops its oldest pack |
| AgentOutput.OutputManager.SendSpeakOutput | server/neuro_simulator/agents/output_manager.py:29-56 | the queue becomes Offer of the old queue and SpeakPack, and SpeakPack is delivered exactly when there is a callback |
| AgentOutput.OutputManager.SendModelOutput | server/neuro_simulator/agents/output_manager.py:58-77 | the queue becomes Offer of the old queue and ModelPack, and ModelPack is delivered exactly when there is a callback |
| AgentOutput.OutputManager.SendCustomOutput | server/neuro_simulator/agents/output_manager.py:79-97 | the queue becomes Offer of the old queue and CustomPack, and CustomPack is delivered exactly when there is a callback |
| AgentOutput.UnboundedQueueKeepsAll | server/neuro_simulator/agents/output_manager.py:27 | with the queue the constructor creates, every pack sent is kept, in order |
| SpeakTool.FirstKeywordHit | server/neuro_simulator/agents/neuro/tools/speak.py:65-73 | the scan hits exactly when some lower-cased keyword occurs in the lower-cased text |
| SpeakTool.ApplyKeywordFilter | server/neuro_simulator/agents/neuro/tools/speak.py:45-73 | the text becomes "Filtered." exactly when filtering is configured and a keyword occurs; no keywords or no settings leave it unchanged |
| SpeakTool.Parameters | server/neuro_simulator/agents/neuro/tools/speak.py:35-43 | one required parameter, `text` |
| SpeakTool.SpeakPackFor | server/neuro_simulator/agents/neuro/tools/speak.py:104-143 | with a provider and audio, the pack carries audio and duration; in every fallback it carries the text alone |
| SpeakTool.Execute | server/neuro_simulator/agents/neuro/tools/speak.py:75-154 | non-string or empty text raises ValueError. Filtered text is returned with no output. Otherwise, when there is an output manager, its queue becomes Offer of the old queue and the one speak pack, and the spoken text is the filtered text |
| ChatbotCore.Bracketed | server/neuro_simulator/agents/chatbot/core.py:177-221 | a slice exists exactly when the last closer follows the first opener; it starts with the opener and ends with the closer |
| ChatbotCore.ParseToolCalls | server/neuro_simulator/agents/chatbot/core.py:177-221 | a `[`...`]` slice is tried first, then a `{`...`}` slice, and a reply with neither gives no calls |
| ChatbotCore.SingleObjectReply | server/neuro_simulator/agents/chatbot/core.py:177-221 | a reply holding one object and no brackets yields exactly that call |
| ChatbotCore.CallsOf | server/neuro_simulator/agents/chatbot/core.py:230-240 | a dict is one call, a list gives at most its items and anything else nothing |
| ChatbotCore.DictItems | server/neuro_simulator/agents/chatbot/core.py:233-235 | exactly the dicts of the list |
| ChatbotCore.DictItemsFilter | server/neuro_simulator/agents/chatbot/core.py:233-235 | the dicts are kept in order: one dict is one item, any other value none, and the filter distributes over concatenation |
| ChatbotCore.CallMessage | server/neuro_simulator/agents/chatbot/core.py:245-277 | the call raises exactly when it has a truthy name and non-dict params. It posts exactly when the chatbot called `post_chat_message` with dict params, the status equals "success" and `text_to_post` is truthy; the one message is then the nickname and that text |
| ChatbotCore.Generated | server/neuro_simulator/agents/chatbot/core.py:223-243 | the calls only append messages, at most one per call, all with text. A non-chatbot agent generates none |
| ChatbotCore.ExecuteToolCalls | server/neuro_simulator/agents/chatbot/core.py:223-277 | the loop returns what Generated specifies, or the exception exactly when Generated says a call raised. The output manager receives exactly the `chat_message` outputs of the posted messages, in order, delivered and queued |
| ChatbotCore.ExecuteEntry | server/neuro_simulator/agents/chatbot/core.py:230-240 | the inner loop over one entry's calls continues Generated, stops at a raising call, and sends the chat output of each message it posts |
| ChatbotCore.SendChat | server/neuro_simulator/agents/chatbot/core.py:270-277 | the queue becomes Offer of the old queue and ChatOutput, which is also delivered when there is a callback |
| ChatbotCore.ChatOutput | server/neuro_simulator/agents/chatbot/core.py:270-277 | a `chat_message` output whose payload holds the nickname as `username` and the posted text as `text` |
| ChatbotCore.ChatOutputs | server/neuro_simulator/agents/chatbot/core.py:270-277 | one output per posted message |
| ChatbotCore.ChatOutputsAt | server/neuro_simulator/agents/chatbot/core.py:270-277 | the `k`-th output is the ChatOutput of the `k`-th posted message, stamped `stamp(k)` |
| ChatbotCore.ChatOutputsSnoc | server/neuro_simulator/agents/chatbot/core.py:270-277 | one more posted message adds its output at the end |
| ChatbotCore.SendOneMore | server/neuro_simulator/agents/chatbot/core.py:270-277 | sending one more output after some outputs leaves the callback and queue as sending all of them from the start would |
| ChatbotCore.ReadHistory | server/neuro_simulator/agents/chatbot/core.py:111-120 | a missing file or any undecodable line among the last `limit` lines gives `[]`; otherwise exactly the decoded last `limit` lines, in order (all lines for a limit of 0) |
| ChatbotCore.ReadHistoryCount | server/neuro_simulator/agents/chatbot/core.py:111-120 | with every line decodable, a positive limit gives min(limit, lines) entries and a limit of 0 every line |
| ChatbotCore.FormatToolSchemas | server/neuro_simulator/agents/chatbot/core.py:122-138 | "No tools available." for no tools |
| ChatbotCore.ToolListingLines | server/neuro_simulator/agents/chatbot/core.py:122-138 | a header line then exactly one numbered line per tool |
| ChatbotCore.NoNewlineInToolLine | server/neuro_simulator/agents/chatbot/core.py:128-137 | a tool line built from one-line parts is one line |
| NeuroConfig.FirstService | server/neuro_simulator/neuro_sama/config.py:31-35 | the first dict service whose id matches, with every earlier one a non-matching dict, or none exactly when all are non-matching dicts |
| NeuroConfig.FindService | server/neuro_simulator/neuro_sama/config.py:31-35 | the search loop returns FirstService |
| NeuroConfig.ServiceFrom | server/neuro_simulator/neuro_sama/config.py:29-48 | a service found is a dict with the requested id |
| NeuroConfig.PathJoin | server/neuro_simulator/neuro_sama/config.py:86-91 | `os.path.join` adds a separator only where the base lacks one |
| NeuroConfig.InTest | server/neuro_simulator/neuro_sama/config.py:77 | Python's `in`: a key of a dict, an equal item of a list, a substring of a string, and an error for anything else |
| NeuroConfig.HostOfNonDict | server/neuro_simulator/neuro_sama/config.py:77-78 | a non-dict server section fails the host check when `host` is not in it, and raises otherwise |
| NeuroConfig.NewConfig | server/neuro_simulator/neuro_sama/config.py:10-92 | the config loads exactly when Valid holds. A falsy LLM id, and then a falsy TTS id, is exactly the error reported for it. A loaded config holds truthy credentials and host and derives its four file paths from the working directory |
| NeuroConfig.WithServices | server/neuro_simulator/neuro_sama/config.py:31-48 | the LLM service is looked up first and its error reported first, then the TTS service's; a non-dict `general` raises; the only settings reported missing after this point are the server host and port |
| NeuroConfig.WithCredentials | server/neuro_simulator/neuro_sama/config.py:50-64 | a credential error is reported exactly when a credential is missing or falsy; it names the LLM service first, then the TTS service, and the failing field |
| NeuroConfig.WithServer | server/neuro_simulator/neuro_sama/config.py:66-92 | the host error exactly when the host is missing or falsy, the port error exactly when a truthy host has no port, the working-directory error exactly when only that is missing, and a load exactly when all are present, with the LLM key and model and the four paths |
| NeuroConfig.LoadedServices | server/neuro_simulator/neuro_sama/config.py:31-64 | a loaded config's LLM key and model come from the first matching service, and all credentials are truthy |
| Studio.IsConfigValid | server/neuro_simulator/vedal_studio/config.py:51-76 | valid exactly when every required section and key is present with the right shape |
| Studio.ChangedKeys | server/neuro_simulator/vedal_studio/api.py:137-143 | the changed module sections, in key order, excluding `general` and `stream` |
| Studio.ChangedModules | server/neuro_simulator/vedal_studio/api.py:121-144 | non-dicts report nothing; a changed `general` reports only `neuro_sama`; otherwise ChangedKeys over the new config's keys |
| Studio.RemovedSectionNotReported | server/neuro_simulator/vedal_studio/api.py:137-143 | a section only in the old config is never reported |
| Studio.SchemaTypeName | server/neuro_simulator/vedal_studio/api.py:254-262 | Python type names map to JSON-schema names, and others pass through |
| Studio.GenerateSchema | server/neuro_simulator/vedal_studio/api.py:221-293 | a non-dict gives `{}`; a dict gives an object schema with its properties |
| Studio.Properties | server/neuro_simulator/vedal_studio/api.py:231-291 | one property per config key, in key order, with the value's schema type |
| Studio.Entry | server/neuro_simulator/vedal_studio/api.py:232-291 | dicts get a titled nested schema, non-empty lists an items schema, empty lists none, scalars their default |
| Studio.ListItemsFromFirst | server/neuro_simulator/vedal_studio/api.py:242-268 | a list's item schema comes from its first element only |
| ServerMain.GetApiToken | server/main.py:55-71 | access is granted exactly when no password is set or the header equals it; otherwise the result is 401 |
| ServerMain.MissingTokenRefused | server/main.py:55-71 | once a password is set, a request without the header is refused |
| ServerMain.FullPath | server/main.py:445 | a path under a non-empty prefix starts with `prefix.` |
| ServerMain.KeptEntry | server/main.py:446-451 | an allowed entry is kept unchanged. A non-allowed kept entry is a non-empty dict below its path. A kept entry proves its prefix has allowed paths below it |
| ServerMain.FilterNestedDict | server/main.py:442-452 | only keys of the input are kept, allowed paths or non-empty filtered dicts below allowed paths |
| ServerMain.AllowedKept | server/main.py:446-447 | every allowed entry survives the filter |
| ServerMain.NestedKept | server/main.py:448-451 | a nested dict survives, filtered, when its filtered form is non-empty |
| ServerMain.TopLevelDropped | server/main.py:442-452 | a top-level key with no allowed path at or below it is dropped |
| ServerMain.ServerPathsNotAllowed | server/main.py:420-439 | no allowed path is `server` or below it |
| ServerMain.ServerSettingsProtected | server/main.py:420-452 | a config update can never carry the `server` section, which holds the panel password |
| ServerMain.ParseLine | server/main.py:104-114 | a chat has text and a pool name, or a non-empty unblocked name. An empty line gives nothing. A line without `:` uses the whole line and a pool name |
| ServerMain.NamedLine | server/main.py:104-114 | `name:text` from an unblocked name is a chat from that name |
| ServerMain.ChatsFrom | server/main.py:104-114 | lines only add chats, at most one per line |
| ServerMain.ChatsSensible | server/main.py:104-114 | every chat kept is sensible |
| ServerMain.ParseAudienceChats | server/main.py:103-116 | the loop returns the ChatsFrom of the lines cut to `chats_per_batch`, every chat sensible, and fails only on an empty pool |
| ServerMain.ApiGetLogs | server/main.py:280-283 | for a positive count, the last `lines` entries; for 0, all entries (see Findings) |
| ServerMain.ZeroLinesReturnsAll | server/main.py:280-283 | asking for 0 lines returns every log line |
| ServerMain.LastLogs | server/main.py:280-283 | the last `lines` entries, and none for a count of 0 or less |
| ServerMain.LogsAgreeForPositiveCounts | server/main.py:280-283 | the endpoint as written and the corrected tail agree for every positive count |

## Left out

- Concurrency is out: asyncio tasks, locks and sleeps. A sleep is returned as its length (`Tick`'s result).
- Sockets, websocket framing, HTTP routing and file I/O are out. A file read is a value, a write is `saveOk`, and a broadcast is appended to a sequence.
- The LLM call is out: its streamed reply is a sequence of chunks, or a text, given as a parameter.
- Speech synthesis is out (`synthesize_audio_segment` is not part of this model): its outcome is a parameter.
- `random.sample`, `random.choices`, `random.choice` and `random.uniform` become rolls or a pick function.
- `json.loads` is an oracle; JSON decoding itself is not modelled.
- `str()` of a non-string value is a `show` function; Python's repr formatting is not modelled.
- NeuroConfig.NewConfig: the `float()`/`int()` conversions of numeric settings are not modelled. An exception other than the constructor's own `ValueError`s, such as a non-dict intermediate section, is reported as `Crashed`.
- `Text.Lower` and `Text.Title` case ASCII letters only; `str.lower()` and `str.title()` on non-ASCII text are not modelled (`Text.Title` serves the `key.replace('_', ' ').title()` captions of `Studio.Caption`).
- ChatbotCore.ExecuteToolCalls: the chatbot's history append inside `_execute_single_tool_call` is left out, and so is the nickname generator.
- SpeakTool.Execute: the timeout, exception and missing-provider branches are merged into one text-only fallback, because they behave alike.
- AgentOutput.OutputManager.constructor: the queue's `maxsize` is always 0, as the source creates it. `SendOutput` still states the eviction for a full queue.
- Python's `==` on values is `Json.PyEq`, which compares dicts regardless of key order. It is used wherever the source compares values: the `in` and `list.index` of the memory tools, the service-id match of the config constructor, the Studio's change detection, and the status test of the chatbot. Dafny's `==`, which compares dicts as ordered lists, is used only for `deque.remove` of chats sampled from that same deque and for comparing tool names with string literals.
- `build_context`, which fills the prompt template read from a file, is left out; only the five section formatters are modelled.
- NeuroSamaApi.Session.HandleMessage: the error message text of an ended connection is not modelled. After a tool call raises, the parser's buffer is stated only to be idle.
- NeuroSamaApi.ExecuteToolAndGetOutputPack: only the `speak` tool's output is modelled. The effects of other tools (the memory tools, run through the tool manager) are modelled on their own in `MemoryTools`.
- ContextBuilder.TempLine: an entry's role defaults to "system" when it is missing; the model always carries a role.
- ServerMain.ParseLine: with an empty name pool, a line that needs a pool name (no `:`, or a blocked name) makes `random.choice` raise. The model reports the whole parse as `None` rather than modelling the exception.
- The nickname generator, `broadcast_stream_metadata`, the websocket endpoints, the CLI and the process helpers are not part of this model.
- StreamManager.StreamManager.StartStream: starting the audience chatbot's own generation loop is not modelled; only the performer loop is. The agents' `initialize()` calls (stream_manager.py:155-156) are not modelled either, so neither is their failure path: when one raises, the real `start_stream` has already emptied the tiers, reset the client state and created the loops, and it propagates the error with the stream still stopped, whereas `Launch` always reaches the live phase. The two `reset_memory()` calls (stream_manager.py:159-161) are not modelled; the agents' memories lie outside the stream manager's state.
- MemoryManager: `_notify_memory_change`, the callback run after every successful write, is not modelled. That covers init-memory writes (memory_manager.py:44), core-memory writes (memory_manager.py:177-178) and temp-memory writes (memory_manager.py:242).
- NeuroLoop.NeuroLoop.OutputCallback: the final forward of every pack to the loop's own output callback (neuro_loop.py:81-82) is not modelled. The stream manager wires that callback to a broadcast to the clients (stream_manager.py:105-108, 152), so those broadcasts are missing from `broadcasts`.
- StreamParser.StreamingJsonParser.RemainingBuffer: an accessor of the buffer with no contract of its own; what the buffer holds is stated by `Feed` and `Reset`.
- Where the code and its own comments or documentation disagree, the model follows the code:
  - the stream parser skips the character after a backslash even outside strings;
  - the neuro loop backs off 5 s after an error, not 10 s;
  - the busy flag is not cleared on an error;
  - the stream phase reported to clients never advances past "initializing".

## Findings

| source | as written | input that shows it | evidently intended | confidence | as-written member | corrected member |
|---|---|---|---|---|---|---|
| server/main.py:280-283 | the log endpoint slices from `-lines` only when more logs exist than `lines`, and `-0` is `0` | `lines = 0` with three log lines returns all three, where a tail of length 0 is expected | the last `lines` entries, and none for a count of 0 or less | medium; not executed | ServerMain.ApiGetLogs, ServerMain.ZeroLinesReturnsAll | ServerMain.LastLogs, ServerMain.LogsAgreeForPositiveCounts |
