# Thinkroid Agent Core: a verified model

This project models five parts of the Thinkroid Agent Core, a JavaScript system that runs long-lived LLM agents,
and proves what they are for. `dafny verify dfyconfig.toml` checks everything.

- **Memory graph** (`Reachability`, `Tarjan`, `MemoryTables`, `MemoryDb`, `TagGraph`, `TagSearch`). Memories and tags
  are rows; one polymorphic edge table links them, and code rather than foreign keys keeps it consistent. The
  iterative strongly-connected-components search with its explicit call stack is proved exact; every mutator is
  all-or-nothing with its exact condition of success; merging is a graph quotient; tag searches return exactly the
  reachable tags.
- **Tool loop** (`ToolLoop`, `Transparency`, `ToolDispatch`, `Suspensions`, `HandlerEffects`, `SuspensionBudget`,
  `SuspensionChain`, `StreamAssembly`, `Spelling`, `ChatToolStream`, `StreamedSuspension`). Provider rounds alternate
  with tool calls; a call that needs approval suspends the run into a database row, and a resume replays it. The main
  results: resuming is the same as never suspending if and only if the stored transcript has a single unanswered call,
  and a chain of any length is if and only if that holds of each of its legs; resuming is idempotent over every
  history; the round budget is conserved along chains of suspensions; the streaming handler refines the loop however
  replies are cut into chunks, exactly on the replies that a stream can spell.
- **Supervisor** (`SessionMachine`, `Supervision`, `SupervisionEffects`, `SessionEdges`, `SessionFrame`,
  `SessionPace`, `QuietSession`, `SupervisorHost`). Session statuses, timers, linger ticks and keep-alive renewals as
  atomic steps. Over every run the state machine, the timers, the stored rows and the wake conditions agree; a session
  that receives nothing new is Dormant after a bounded number of expiries.
- **IPC adapter** (`IpcView`, `IpcRun`, `IpcEffects`, `IpcLoss`, `IpcAdapter`). Two adapters over FIFO channels, with
  every interleaving of delivery, timers, stop and handler steps. Each request settles at most once; a stream that
  resolves has delivered exactly what was emitted if and only if nothing was lost.
- **Context engine, rate limiter, cursors** (`ContextMessages`, `Breakpoints`, `Compaction`, `Stage2`, `Stage3`,
  `RateLimit`, `CursorWindows`, `ArchiveWindows`). Zone layout and cache breakpoints, the compaction breaker, overflow
  truncation, the sliding window, and the windows of history that the Cerebellum consumes before a session is
  archived.

How the parts are modelled. Tables are maps and a transaction is one atomic step. The LLM provider, tool dispatch, the
context engine's verdicts, the compaction channel, clocks and random identifiers are parameters: functions of what they
are asked (tool dispatch also of how far the transcript has come, so that asking twice may give two answers), or values
handed to a step. Code that updates fields is a class whose methods are proved equal to a step on values, about which the
lemmas then speak. Exceptions are results.

Where the code and what one would expect of it part, the model follows the code and says exactly when it behaves:

- A suspension in the middle of a batch abandons the later calls of that message (`Transparency.TransparentIffLastInBatch`,
  `Transparency.SiblingIsAbandoned`).
- A pending row accepts any approval id (`Suspensions.PendingAcceptsAnyApproval`).
- A stream cannot spell everything that a reply can hold: without a message it completes with empty text, where the loop
  reports an error (`ChatToolStream.SilenceDiffers`); a call without arguments, or with arguments that are not a string, is
  dispatched with empty text (`ChatToolStream.BareCallDiffers`); a legacy function call is dispatched, where the loop ignores
  it (`ChatToolStream.LegacyCallDiffers`). On all other replies the runs are the same (`ChatToolStream.StreamingRefines`).
- A suspension taken on the backup configuration forgets it (`ChatToolStream.BackupIsForgotten`,
  `ChatToolStream.BackupSuspensionIsLost`).
- A start time of 0 reads as unset, so such a session is renewed for ever (`QuietSession.QuietSessionDormantIff`,
  `QuietSession.ZeroStartHappens`).
- A stream caller takes a value with `done` or `partial` fields for a frame even when nothing was emitted
  (`IpcView.StreamIsFaithfulIff`); a handler that returns undefined sends no result field, and its caller times out.
- A stream requested before `start` can lose its first chunks (`IpcRun.EarlyStreamCanMissAChunk`; exactly when, by
  `IpcLoss.StreamIsExactIff`), and `stop` before `start` leaves requests to their timers.
- The comment on `src/adapters/ipc.js:364-366` says that plain callers never look into the payload; the code
  drops a payload with `partial: true` and a `chunk` field (`IpcView.PlainIsFaithfulIff`).
- An explicit Zone B boundary partitions the conversation only if the system messages come first
  (`Stage3.ExplicitPartitionIff`).
- Stage 2 lays its messages out from the stored history; of the payload it was handed it takes the system prompt only, so the
  result does not depend on that payload's user message (`Stage2.OnlyThePromptIsTaken`).
- The comment on `src/stores/agent-core-db/session-meta-store.js:3` says that the Supervisor writes only the
  status; the code lets it write six columns, and the model follows the code.

## Model

| member | source | states |
|---|---|---|
| Tarjan.TarjanSCC | modules/thinkroid-memory/src/graph-utils.js:6-79 | for every adjacency map (repeated edges, self-loops, neighbours that are no keys) the iterative search ends and returns exactly the mutual-reachability classes with at least two nodes, each once, in reverse topological order |
| Tarjan.PopComponent | modules/thinkroid-memory/src/graph-utils.js:61-67 | the pop loop takes the node and everything above it off the stack, topmost first, and clears exactly their flags |
| Tarjan.FinishFrame | modules/thinkroid-memory/src/graph-utils.js:50-74 | ending a frame hands the low link to the parent and, at a root, collects the component, keeping the whole search invariant |
| Tarjan.TreeEdgeKeepsInv | modules/thinkroid-memory/src/graph-utils.js:35-45 | opening a frame for an undiscovered neighbour keeps the search invariant (discovery order, call path, low links) |
| Tarjan.LookKeepsInv | modules/thinkroid-memory/src/graph-utils.js:46-49 | looking at a discovered neighbour and perhaps lowering the low link keeps the search invariant |
| Tarjan.FinishKeepsInv | modules/thinkroid-memory/src/graph-utils.js:51-68 | popping an exhausted frame, with its stack segment when it is a root, keeps the search invariant |
| Tarjan.GoneIsClass | modules/thinkroid-memory/src/graph-utils.js:59-67 | the stack segment of a root is one whole class of mutual reachability |
| Tarjan.ReportIsExact | modules/thinkroid-memory/src/graph-utils.js:69-78 | when every key has been searched, the collected components are exactly the classes with two or more nodes |
| TagGraph.PairsAreEdges | modules/thinkroid-memory/src/views.js:994-1000 | tags are parent and child when the table has that parent_of edge, and linked when it has an edge of any kind either way |
| TagGraph.SelectPairs | modules/thinkroid-memory/src/views.js:994-1000 | the query returns exactly the parent_of pairs between tags |
| TagGraph.DetectLoops | modules/thinkroid-memory/src/views.js:991-1030 | the report lists exactly the cycle classes of the parent_of graph, each tag with its name (none unknown in consistent tables), is empty iff that graph has no cycle of length two or more, and adds one audit row for each entry |
| TagGraph.CycleIffMutual | modules/thinkroid-memory/src/views.js:991-1008 | a closed walk through two different tags exists iff two different tags reach each other |
| TagGraph.ReportEmptyIffNoCycle | modules/thinkroid-memory/src/views.js:1003-1008 | an exact report is empty exactly when there is no such cycle |
| TagGraph.ReportIsDisjoint | modules/thinkroid-memory/src/graph-utils.js:6-79 | two entries of an exact report share no node |
| TagSearch.CollectDescendants | modules/thinkroid-memory/src/views.js:75-96 | on any cyclic graph the view collects exactly the parent_of-reachable tags, and gives up iff there are at least as many as the limit |
| TagSearch.DaemonDescendants | src/lib/daemon-ce-stage-4.js:118-137 | the daemon's own traversal collects the same set, without a limit |
| TagSearch.FindByTag | modules/thinkroid-memory/src/views.js:66-108 | the result is exactly the memories tagged with the named tag or, when asked, one of its descendants; it throws iff there are 10000 or more of those |
| TagSearch.DaemonFindByTag | src/lib/daemon-ce-stage-4.js:111-150 | the daemon's copy returns the same set of memories and never throws |
| TagSearch.CollectRelated | modules/thinkroid-memory/src/views.js:160-187 | the tags visited are exactly those at undirected distance at most the depth; it gives up exactly if, at some smaller distance with tags to go on from, the limit has been reached before the last of them is taken up; so never with fewer than limit tags that near, and always with limit of them at a smaller distance |
| TagSearch.FindRelated | modules/thinkroid-memory/src/views.js:156-198 | the result is exactly the memories tagged within depth hops of the named tag over edges of every kind and direction; it throws exactly if that search gives up |
| TagSearch.BallIsDistance | modules/thinkroid-memory/src/views.js:165-187 | the set reached after d rounds of the frontier is exactly the set at distance at most d |
| TagSearch.BallStable | modules/thinkroid-memory/src/views.js:166-166 | stopping at an empty frontier loses nothing: a ball that stops growing never grows again |
| MemoryDb.TagMemory | modules/thinkroid-memory/src/views.js:443-456 | the tag loop succeeds iff the names are pairwise different, and then every named tag exists and is linked to the memory and nothing else changed |
| MemoryDb.KeyTakenIffRepeated | modules/thinkroid-memory/src/schema.sql:60-60 | inserting the tag edge meets the UNIQUE key exactly when the name was repeated |
| MemoryDb.Store.Write | modules/thinkroid-memory/src/views.js:422-460 | all or nothing: it succeeds iff the tag names are distinct, adds exactly one memory with its tags and audit row, and otherwise leaves the tables unchanged |
| MemoryDb.Store.Update | modules/thinkroid-memory/src/views.js:468-528 | all or nothing: success iff the memory exists and new tag names are distinct; the tag edges are replaced, everything else is kept |
| MemoryDb.Store.RelateTags | modules/thinkroid-memory/src/views.js:577-619 | success iff description and weight are given as the kind demands, the weight is in range, both tags exist and the pair is not yet related; otherwise nothing changes |
| MemoryDb.Store.UnrelateTags | modules/thinkroid-memory/src/views.js:966-982 | success iff the edge exists, which then is the only one removed |
| MemoryDb.Store.Delete | modules/thinkroid-memory/src/views.js:719-743 | the memory, every edge at either of its ends and nothing else go; its audit rows stay with a null reference |
| MemoryDb.Store.Prune | modules/thinkroid-memory/src/views.js:758-807 | exactly the memories below the score (and of the layer) go, with all their edges |
| MemoryDb.Store.Merge | modules/thinkroid-memory/src/views.js:820-886 | success iff both memories exist and differ; the four edge statements together glue source onto target |
| MemoryDb.Store.DeleteTag | src/cerebellum/layer2.js:519-530 | the named tag and every edge at either of its ends go |
| MemoryDb.NoCollision | modules/thinkroid-memory/src/views.js:841-867 | after the first DELETE the following UPDATE meets no UNIQUE key, in any row order, with self edges and source-target edges included |
| MemoryDb.HalfMergeIsQuotient | modules/thinkroid-memory/src/views.js:841-853 | one side's DELETE and UPDATE rename that end of every key and merge the keys that become equal |
| MemoryDb.HalvesMakeMerge | modules/thinkroid-memory/src/views.js:839-867 | both sides together: the new set of edge keys is the image of the old one under renaming source to target |
| MemoryDb.DropSteps | modules/thinkroid-memory/src/views.js:721-740 | audit rows, edge deletion and memory deletion in that order amount to dropping the memories |
| MemoryTables.MergedKeepsConsistent | modules/thinkroid-memory/src/views.js:820-886 | after a merge the tables are consistent and no edge mentions the source |
| MemoryTables.MergeConservesAccess | modules/thinkroid-memory/src/views.js:831-881 | the sum of access counts over all memories is unchanged by a merge |
| MemoryTables.StepKeepsConsistent | modules/thinkroid-memory/src/views.js:404-982 | each of the eight kinds of change keeps edge keys unique, every edge end on a live row and audit rows on live memories or null |
| MemoryTables.WroteRows | modules/thinkroid-memory/src/views.js:422-460 | `write` row by row: one more memory with the given content and layer, its new tags at level 0 and one edge to each named tag; every other row is as it was |
| MemoryTables.UpdatedRows | modules/thinkroid-memory/src/views.js:468-528 | `update` row by row: only the patched columns of one memory change; with tags in the patch exactly its own tagged_with edges go and those to the named tags come, without them no edge or tag changes |
| MemoryTables.TagDroppedRows | src/cerebellum/layer2.js:519-530 | the tag deletion row by row: the tag and exactly the edges with an end at it |
| MemoryTables.HistoryIsConsistent | modules/thinkroid-memory/src/views.js:404-982 | so does every sequence of them, in any order |
| ToolLoop.DispatchToolCalls | src/handlers/brain-tool-loop-handler.js:271-354 | the inner loop with its early return computes the batch that the lemmas speak about, each call as ToolDispatch.ToolIsRun says |
| ToolLoop.EveryCallIsAnswered | src/handlers/brain-tool-loop-handler.js:271-354 | each dispatched call gets exactly one tool message under its id, in order; a suspension names the first call left without one and abandons exactly the later ones |
| ToolDispatch.ToolIsRun | src/handlers/brain-tool-loop-handler.js:271-352 | a call runs the last tool of its name with the dispatcher that tool asks for and with its parsed arguments; a raise, a content with its error flag or JSON text in its place is told under the call's id, a shell being opened once, and a pending approval stops the batch there |
| ToolDispatch.UnknownToolIsSaid | src/handlers/brain-tool-loop-handler.js:277-285 | a call that names no tool is answered with an error, and the batch goes on |
| ToolDispatch.AsksThat | src/handlers/brain-tool-loop-handler.js:209-269 | a round asks the provider with the transcript, the tools without their executors and a positive token limit only, and the reply decides the round |
| ToolDispatch.OneCallRound | src/handlers/brain-tool-loop-handler.js:250-352 | a round whose reply is one call, by what the tool's answer means |
| ToolDispatch.RoundThenRest | src/handlers/brain-tool-loop-handler.js:208-354 | a round that does not end the run leaves the rest of it as it is, one round more and with its report counted |
| ToolDispatch.ReportIsCounted | src/handlers/brain-tool-loop-handler.js:114-127 | a report adds its own counts, and prompt plus completion where it gives no positive total |
| ToolDispatch.UsageSumsUp | src/handlers/brain-tool-loop-handler.js:204-360 | if each report of the provider sums up, the usage of any run does |
| ToolLoop.PlayRound | src/handlers/brain-tool-loop-handler.js:204-354 | one round: the provider's reply, its message in the transcript verbatim, its calls dispatched; a legacy function call is not dispatched |
| ToolLoop.RunToolLoopRounds | src/handlers/brain-tool-loop-handler.js:190-365 | the loop computes the recursive meaning of the rounds: transcript, outcome, usage and rounds used |
| ToolLoop.JoinTwice | src/handlers/brain-tool-loop-handler.js:114-127 | what rounds contribute to a run adds up associatively |
| Transparency.RunExtends | src/handlers/brain-tool-loop-handler.js:204-365 | the transcript only grows, no more rounds are used than allowed, and every end but exhaustion uses at least one |
| Transparency.BatchApproved | src/handlers/brain-tool-loop-handler.js:271-354 | in the world where the approved call answers directly, a suspended batch goes on with the answer and the abandoned calls |
| Transparency.ResumeIsTransparent | src/handlers/brain-tool-loop-resume-handler.js:195-297 | if the suspended call is the last of its batch, suspending and resuming equals never suspending: same outcome, transcript, total usage and total rounds |
| Transparency.AbandonedSiblingsShow | src/handlers/brain-tool-loop-handler.js:326-337 | if the suspension abandons later calls of the same message, the two runs always differ in transcript or outcome |
| Transparency.SuspendedTranscriptTells | src/handlers/brain-tool-loop-handler.js:271-354 | the stored transcript tells what a suspension abandoned: the unanswered calls of its last assistant message are the suspended call and the abandoned ones, in order |
| Transparency.TransparentIffLastInBatch | src/handlers/brain-tool-loop-resume-handler.js:195-297 | resuming is the same as never suspending if and only if the last assistant message of the stored transcript has exactly one unanswered call |
| Transparency.SiblingIsAbandoned | src/handlers/brain-tool-loop-handler.js:326-337 | it happens: a batch of two calls whose first suspends, and whose resume differs from the run that never suspends |
| Suspensions.SuspensionsStore.InsertPending | src/stores/agent-core-db/tool-loop-suspensions-store.js:111-146 | succeeds iff no field is empty and the id is free; the new row is pending with the transcript, the call and the rounds left over from the cap, and every other row is unchanged |
| Suspensions.SuspensionsStore.MarkResumed | src/stores/agent-core-db/tool-loop-suspensions-store.js:52-85 | status, approval id and cached reply change together, without a look at the old status |
| Suspensions.SuspensionsStore.MarkCancelled | src/stores/agent-core-db/tool-loop-suspensions-store.js:62-67 | the row keeps everything but its status, whatever that was, and no other row changes |
| Suspensions.SuspensionsStore.MarkExpired | src/stores/agent-core-db/tool-loop-suspensions-store.js:69-74 | likewise for expiry |
| Suspensions.Handlers.ToolLoop | src/handlers/brain-tool-loop-handler.js:403-592 | the first-leg handler has exactly the effect on the store and the answer that the later theorems speak about |
| Suspensions.Handlers.Resume | src/handlers/brain-tool-loop-resume-handler.js:132-418 | the resume handler likewise, in each state of the row |
| HandlerEffects.InsertEffect | src/stores/agent-core-db/tool-loop-suspensions-store.js:111-146 | when a suspended run can be stored, and every column of its row |
| HandlerEffects.StartIs | src/handlers/brain-tool-loop-handler.js:403-592 | `brain.toolLoop` in every case: what refuses it, the run it makes, every field of its answer and of its row |
| HandlerEffects.ResumeRefuses | src/handlers/brain-tool-loop-resume-handler.js:132-192 | `brain.toolLoop.resume` on everything it refuses or answers from the row, in the order of its checks, without a round or a change |
| HandlerEffects.ResumeDrives | src/handlers/brain-tool-loop-resume-handler.js:194-418 | `brain.toolLoop.resume` on a pending row in every case: configuration, transcript, rounds, answer, chained row and closed row |
| Suspensions.RowAfter | src/handlers/brain-tool-loop-resume-handler.js:132-418 | one operation leaves an existing row alone, ends it, or moves it from pending to resumed |
| Suspensions.NeverPendingAgain | src/stores/agent-core-db/tool-loop-suspensions-store.js:52-86 | no sequence of operations returns a row to pending |
| Suspensions.ResumedStays | src/handlers/brain-tool-loop-resume-handler.js:164-192 | a resumed row stays exactly as it is until it is cancelled or expires |
| Suspensions.EndedStays | src/stores/agent-core-db/tool-loop-suspensions-store.js:52-86 | over every history a cancelled or expired row stays so, under its agent |
| Suspensions.EndedRefusesForGood | src/handlers/brain-tool-loop-resume-handler.js:155-162 | once cancelled or expired, even after a resume, a row refuses every later resume, the winning one included, without a round or a change |
| Suspensions.CommitCaches | src/handlers/brain-tool-loop-resume-handler.js:386-392 | a committed resume closes its row and caches exactly the answer it gives |
| Suspensions.ReplayIsIdempotent | src/handlers/brain-tool-loop-resume-handler.js:164-192 | until a cancel or expiry every repeat with the winning approval id returns the identical answer, any other conflicts, and neither runs a round nor changes a row |
| Suspensions.PendingAcceptsAnyApproval | src/handlers/brain-tool-loop-resume-handler.js:194-200 | a pending row accepts any non-empty approval id with the same result: its own is never compared |
| Suspensions.AtMostOneLeg | src/handlers/brain-tool-loop-resume-handler.js:132-418 | over every history each row drives at most one committed leg |
| SuspensionBudget.BudgetIsConserved | src/handlers/brain-tool-loop-handler.js:426-530 | over every history, rounds spent by a chain plus rounds left in its row equal the cap of the first request |
| SuspensionBudget.ChainStaysWithinCap | src/handlers/brain-tool-loop-resume-handler.js:278-353 | however a resume ends, its chain stays within the cap, and a chained row has strictly fewer rounds left |
| SuspensionBudget.ChainsAreShort | src/handlers/brain-tool-loop-resume-handler.js:278-353 | chains of suspensions have no repeated row and are no longer than the original cap |
| SuspensionBudget.CapIsHard | src/handlers/brain-tool-loop-handler.js:426-427 | the cap is the request (25 by default) or 50, whichever is less |
| SuspensionBudget.LegFits | src/handlers/brain-tool-loop-resume-handler.js:195-353 | a driven leg uses at most what the row has left and hands the rest to the chained row |
| SuspensionBudget.HandlersAreTransparent | src/handlers/brain-tool-loop-resume-handler.js:195-418 | through the store and both handlers: the second reply tells how the uninterrupted run would have ended, and rounds and usage add up |
| SuspensionChain.FirstLegMerges | src/handlers/brain-tool-loop-resume-handler.js:195-353 | with the first suspension approved in place, the legs from the start are the first leg followed by the later ones |
| SuspensionChain.AbandoningLegShows | src/handlers/brain-tool-loop-handler.js:326-337 | a resumed leg that abandons calls shows, whatever is approved later: the run that never suspends dispatches there, the chain asks the provider |
| SuspensionChain.ChainIsTransparent | src/handlers/brain-tool-loop-resume-handler.js:195-353 | for any number of suspensions, each resumed with its approved result: the legs together equal one run that never suspends for them, in outcome, transcript, usage and rounds, if and only if no resumed leg abandons calls; otherwise outcome or transcript differ |
| StreamAssembly.ApplyToolCallDeltas | src/lib/llm-provider/streaming-chat.js:31-54 | the accumulator loop applies the deltas one by one in order |
| StreamAssembly.AssemblyIsExact | src/lib/llm-provider/streaming-chat.js:31-54 | every index ends up with its first id, its first name and all of its argument fragments in order |
| StreamAssembly.FirstsAreFirst | src/lib/llm-provider/streaming-chat.js:39-47 | of the deltas of one index, the first that has an id gives the id and the first that has a name gives the name |
| StreamAssembly.ArgumentsInOrder | src/lib/llm-provider/streaming-chat.js:48-50 | the argument fragments are joined in the order of their arrival |
| StreamAssembly.IndexInOrder | src/lib/llm-provider/streaming-chat.js:31-54 | the deltas of one index keep their order |
| StreamAssembly.OneDelta | src/lib/llm-provider/streaming-chat.js:31-75 | a delta without an index, and a legacy one, belongs to index 0 |
| StreamAssembly.InterleavingIsInvisible | src/lib/llm-provider/streaming-chat.js:31-54 | only the order of deltas within one index matters |
| StreamAssembly.SplittingIsInvisible | src/lib/llm-provider/streaming-chat.js:48-51 | an argument text may be cut anywhere |
| StreamAssembly.FlushToolCalls | src/lib/llm-provider/streaming-chat.js:77-92 | the queued calls come in ascending index order, each with its parsed arguments |
| StreamAssembly.StreamChatCompletion | src/lib/llm-provider/streaming-chat.js:94-181 | the consumer loop yields the text in order, the assembled calls and every usage report |
| StreamAssembly.TextInOrder | src/lib/llm-provider/streaming-chat.js:170-173 | text comes in the order of the stream |
| StreamAssembly.CallsInOrder | src/lib/llm-provider/streaming-chat.js:150-178 | the calls on both sides of a finish marker come in the order of the stream |
| StreamAssembly.OneChoiceStream | src/lib/llm-provider/streaming-chat.js:120-180 | a stream of one choice yields its text, its report and the calls of its deltas |
| StreamAssembly.StreamAssembles | src/lib/llm-provider/streaming-chat.js:141-178 | with all deltas before the finish marker, the calls are those assembled from the whole stream |
| ChatToolStream.StreamToolRounds | src/handlers/brain-chat-tool-stream-handler.js:233-507 | the streaming round loop computes its run, and everything sent to the caller mirrors what was appended to the transcript |
| ChatToolStream.StreamOneRound | src/handlers/brain-chat-tool-stream-handler.js:233-492 | one round: its run, and everything sent in it, the pieces of text first and then for each call its use and its result, a call that waits for approval last |
| ChatToolStream.EncodedCallsAreCarried | src/lib/llm-provider/streaming-chat.js:31-181 | however a reply is cut into chunks, the calls that come out are its calls as a stream can spell them: text arguments as they are, others lost, a legacy function call as a call without id |
| ChatToolStream.BatchRefines | src/handlers/brain-chat-tool-stream-handler.js:309-492 | dispatching the streamed calls equals dispatching the calls as a stream can spell them, up to normalised argument text; the calls written into the transcript are the reply's own exactly if all of their arguments are strings |
| ChatToolStream.StreamingSpells | src/handlers/brain-chat-tool-stream-handler.js:233-507 | for every provider: the streaming handler makes the run of the loop on the replies as a stream can spell them, a missing message completing with empty text |
| ChatToolStream.StreamingRefines | src/handlers/brain-chat-tool-stream-handler.js:233-507 | streaming refines non-streaming: for any chunking and interleaving the run (transcript, outcome, rounds and, unless it failed, usage) is that of the non-streaming loop, up to normalised argument text, if and only if a stream can spell every message of that run (no legacy function call, no arguments that are not a string) and it does not end in a missing message; where only the latter fails it completes with empty text, where the former fails the transcripts differ |
| ChatToolStream.ChatToolStream | src/handlers/brain-chat-tool-stream-handler.js:184-508 | the handler's whole answer (status, text, usage, ids, transcript) and its suspension row for every outcome; what it emitted mirrors the transcript, and asks for approval of the stored call, last, exactly when the answer is pending |
| ChatToolStream.BackupIsUsed | src/handlers/brain-chat-tool-stream-handler.js:116-148 | with the primary configuration unavailable the handler does what it would do if the backup were the primary one |
| ChatToolStream.SameSuspensionRow | src/handlers/brain-chat-tool-stream-handler.js:184-508 | exactly when both handlers leave the same suspension row and give the same answer up to normalisation: both refuse the request, or the primary configuration is available, a stream can spell the run, and it does not end in a missing message |
| ChatToolStream.EmptyStreamCompletes | src/handlers/brain-chat-tool-stream-handler.js:261-307 | a round in which the stream says nothing completes with empty text, where the loop reports a missing message, with the same usage |
| ChatToolStream.SilenceDiffers | src/handlers/brain-chat-tool-stream-handler.js:261-307 | it happens: a provider without messages, at any transcript and number of rounds |
| ChatToolStream.BareCallDiffers | src/lib/llm-provider/streaming-chat.js:20-29 | it happens: a provider whose calls have no arguments, which the loop dispatches with an empty object and the stream with an empty text |
| ChatToolStream.LegacyCallDiffers | src/lib/llm-provider/streaming-chat.js:61-75 | it happens: a provider of legacy function calls, which the loop ignores and the stream dispatches |
| Spelling.SpellableRunIsSpelled | src/handlers/brain-tool-loop-handler.js:204-354 | a run whose messages a stream can spell is the run on the replies as they are spelled |
| Spelling.UnspellableShows | src/handlers/brain-tool-loop-handler.js:72-75 | otherwise the two part at a message, and no normalisation hides it |
| ChatToolStream.BackupIsForgotten | src/handlers/brain-chat-tool-stream-handler.js:116-148 | whatever configuration a streamed suspension ran on, its resume is refused for want of a configuration iff the primary, or the resume's own override, is unavailable then; nothing changes in that case |
| ChatToolStream.BackupSuspensionIsLost | src/handlers/brain-chat-tool-stream-handler.js:407-427 | it happens: a request that suspends on its backup and cannot be resumed |
| StreamedSuspension.RunFrom | src/handlers/brain-tool-loop-resume-handler.js:195-297 | runs from two beginnings that the provider cannot tell apart are the same but for the beginning |
| StreamedSuspension.StreamedSuspensionResumes | src/handlers/brain-tool-loop-resume-handler.js:195-418 | suspending a stream that spells its run and resuming it through the other handler tells how the uninterrupted run would have ended, and the rounds add up |
| SessionMachine.LeadsIsReachability | src/supervisor/session-state-machine.js:13-18 | the statuses a session can still reach are exactly those along the allowed transitions |
| SessionMachine.CreatedIsExact | src/supervisor/session-state-machine.js:34-43 | creating keeps `_currentAwake` naming the one Awake session |
| SessionMachine.TransitionedIsExact | src/supervisor/session-state-machine.js:68-98 | so does every transition that does not throw |
| SessionMachine.SwitchedIsExact | src/supervisor/session-state-machine.js:106-116 | a context switch succeeds iff the target is Drowsy, and then demotes the old session and promotes the target |
| SessionMachine.SessionStateMachine.Create | src/supervisor/session-state-machine.js:34-43 | throws exactly when the id is taken or a session is Awake, and then changes nothing |
| SessionMachine.SessionStateMachine.Transition | src/supervisor/session-state-machine.js:68-98 | throws exactly on a forbidden transition or a second Awake session |
| SessionMachine.SessionStateMachine.SwitchContext | src/supervisor/session-state-machine.js:106-116 | the two transitions in place equal the switch on values |
| Supervision.SessionCreatedIsSafe | src/supervisor/index.js:190-205 | creating a session demotes the old one, completes iff the name is unused, and leaves machine, timers, rows and wake conditions in agreement |
| Supervision.ReceivedIsSafe | src/supervisor/index.js:88-127 | so does an event, whatever the context engine decided about it |
| Supervision.OverflowedIsSafe | src/supervisor/index.js:137-150 | the overflow callback keeps the four tables in agreement, along allowed transitions |
| Supervision.AwakeExpiredIsSafe | src/supervisor/index.js:328-333 | so does the Awake timer |
| Supervision.ExpiryFindsDrowsy | src/supervisor/index.js:336-338 | an expired Drowsy timer always finds its session Drowsy |
| Supervision.DrowsyExpiredIsSafe | src/supervisor/index.js:336-366 | so does the Drowsy timer, with linger, keep-alive and the fall to Dormant |
| Supervision.StepIsSafe | src/supervisor/index.js:88-535 | every atomic step keeps the four tables in agreement and moves sessions only along allowed transitions |
| SessionEdges.StepEdges | src/supervisor/index.js:88-535 | which transitions each step takes: an expired Drowsy timer one session from Drowsy to Dormant, a check one from Dormant to Archived, any other only between Awake and Drowsy |
| SessionEdges.StepTakesOneEdge | src/supervisor/session-state-machine.js:13-18 | in one step a session stays as it is or takes a single allowed transition, and a new one is Awake or Drowsy |
| Supervision.RunIsSafe | src/supervisor/index.js:88-535 | and so does every run |
| Supervision.FreshRunIsSafe | src/supervisor/index.js:88-535 | after any run from an empty store: one Awake session at most, named exactly, stored status equal to machine status, timers exactly for Awake and Drowsy sessions, a start time exactly with pending requests |
| Supervision.DormantIsNeverRevived | src/supervisor/session-state-machine.js:13-18 | over every run a Dormant session stays Dormant or is archived, and has no timer |
| Supervision.ArchivedIffBothCursorsDone | src/supervisor/index.js:213-232 | a Dormant session is archived by the check iff both cursors have reached the end of its history |
| Supervision.AppendedEventRefreshes | src/supervisor/index.js:97-108 | an event for the Awake session restarts its timers and its linger count and changes no status |
| Supervision.SwitchingEventWakes | src/supervisor/index.js:114-119 | an event for a Drowsy session makes it the Awake one with fresh timers, and the former Awake one Drowsy |
| Supervision.CreatingEventWakes | src/supervisor/index.js:92-95 | an event that opens a session leaves it Awake with a fresh row and timers, and the former Awake one Drowsy |
| Supervision.GoesDormantIff | src/supervisor/index.js:336-455 | exactly when an expiry sends a session to Dormant: no linger tick due, and nothing pending, or five renewals and half an hour since a start time other than 0 |
| Supervision.LingerComesFirst | src/supervisor/index.js:340-358 | while a linger tick is due keep-alive is not touched; an exhausted linger count clears the flag; a refused renewal clears the pending state |
| Supervision.PendingUpAndDown | src/supervisor/index.js:502-535 | counting a request up and down again restores a session that had none pending |
| SupervisionEffects.NewSessionTakesOver | src/supervisor/index.js:190-205 | a session of an unused name becomes the Awake one with new timers and wake conditions, the former one becomes Drowsy, and nothing else changes |
| SupervisionEffects.NewSessionThrows | src/supervisor/index.js:190-205 | under a name in use it throws, after the Awake session was sent to Drowsy |
| SupervisionEffects.OverflowOpens | src/supervisor/index.js:137-150 | the overflow callback opens a session under the new name, with a new row, in place of the overflowing one |
| SupervisionEffects.IdleEvent | src/supervisor/index.js:88-127 | an event without a session changes nothing, one without an action only restarts the linger count |
| SupervisionEffects.AppendedEvent | src/supervisor/index.js:97-108 | an event for a session: its linger flag and count, its timers if it is Awake, and nothing else |
| SupervisionEffects.SwitchingEvent | src/supervisor/index.js:114-119 | an event that goes back to a session: a Drowsy one takes over with new timers, any other is only judged |
| SupervisionEffects.OpeningEvent | src/supervisor/index.js:92-95 | an event that opens a session: it takes over with a new row, timers and wake conditions, and nothing else changes |
| SupervisionEffects.ReplacingEvent | src/supervisor/index.js:121-127 | a session that the event replaces becomes Drowsy if it is still Awake after all the rest |
| SupervisionEffects.AwakeTimerEffect | src/supervisor/index.js:328-333 | the Awake timer acts once, from its deadline on, and sends its session to Drowsy if it is Awake |
| SupervisionEffects.DrowsyTimerEffect | src/supervisor/index.js:336-366 | the expired Drowsy timer, column by column: a linger tick, else a renewal, else the fall to Dormant |
| SupervisionEffects.DrowsyTimerWithoutRow | src/supervisor/index.js:336-366 | a session without a row goes down at once |
| SupervisionEffects.CheckEffect | src/supervisor/index.js:213-232 | the archiving check changes one status, under its condition, and nothing else |
| SupervisionEffects.RaisingEffect | src/supervisor/index.js:502-513 | one more request: the count, the clock and the renewals of one row |
| SupervisionEffects.LoweringEffect | src/supervisor/index.js:520-535 | one request less, not below zero; the last one takes the keep-alive state with it |
| SupervisionEffects.AppendingEffect | src/stores/agent-core-db/session-history-store.js:43-71 | one more turn of one session's history |
| SessionFrame.StepAlike | src/supervisor/index.js:88-535 | a step that is not about a session leaves its pending, renewal and start fields alone, and its linger fields too unless an event names it; its timers stay or start anew |
| SessionPace.PaidAtExpiry | src/supervisor/index.js:431-455 | when a Drowsy timer expires, all renewals since the last request have taken a full Drowsy delay each |
| SessionPace.RunKeepsPace | src/supervisor/index.js:457-513 | that accounting of time holds after every run |
| QuietSession.ExpiryUsesUp | src/supervisor/index.js:336-495 | an expiry that keeps the session out of Dormant uses up a linger tick or a renewal |
| QuietSession.QuietRunPays | src/supervisor/index.js:336-535 | over a run that brings the session nothing new, expiries plus what is left never exceed what was left at the start |
| QuietSession.QuietSessionReachesDormant | src/supervisor/index.js:336-495 | a quiet session is Dormant once its Drowsy timer has expired more often than its linger ticks and renewals still left allow, which are at most max_linger_count + max(5, ceil(30 min / Drowsy TTL)) |
| QuietSession.QuietSessionDormantIff | src/supervisor/index.js:440-440 | exactly: it is down by then if and only if its request was not recorded at clock reading 0, which the code takes for unset |
| QuietSession.ZeroStartHappens | src/supervisor/index.js:440-440 | it happens: a request recorded at clock reading 0, after which more expiries than were left do not bring the session down |
| SupervisorHost.TtlManager.StartAwake | src/supervisor/ttl-manager.js:50-65 | starting a session's timers replaces the old entry and touches no other |
| SupervisorHost.TtlManager.Clear | src/supervisor/ttl-manager.js:81-88 | clearing removes exactly that entry |
| SupervisorHost.Supervisor.CreateSession | src/supervisor/index.js:190-205 | the method takes exactly the step of the model, also when it throws |
| SupervisorHost.Supervisor.RewriteRows | src/supervisor/index.js:300-305 | the loop over all sessions stores the target's and every Drowsy status and nothing else |
| SupervisorHost.Supervisor.SwitchContext | src/supervisor/index.js:295-309 | likewise for the context switch with its rows and timers |
| SupervisorHost.Supervisor.ReceiveEvent | src/supervisor/index.js:88-127 | likewise for an event, keeping safety and the allowed transitions |
| SupervisorHost.Supervisor.OnOverflow | src/supervisor/index.js:137-150 | likewise for the overflow callback |
| SupervisorHost.Supervisor.HandleAwakeTtlExpired | src/supervisor/index.js:328-333 | likewise for the Awake timer |
| SupervisorHost.Supervisor.HandleDrowsyTtlExpired | src/supervisor/index.js:336-366 | likewise for the Drowsy timer |
| SupervisorHost.Supervisor.CheckLingerConditions | src/supervisor/index.js:375-385 | the check with its side effect of clearing an exhausted linger flag |
| SupervisorHost.Supervisor.CheckKeepAliveConditions | src/supervisor/index.js:431-455 | the check with its side effect of clearing the pending state when forced |
| SupervisorHost.Supervisor.CheckArchivedTrigger | src/supervisor/index.js:213-232 | reports true exactly when it archived the session |
| SupervisorHost.Supervisor.IncrementPendingRequests | src/supervisor/index.js:502-513 | counts up, restarts the keep-alive clock, and keeps safety |
| SupervisorHost.Supervisor.DecrementPendingRequests | src/supervisor/index.js:520-535 | counts down, clears the keep-alive state at zero, and keeps safety |
| IpcView.ViewSnoc | src/adapters/ipc.js:247-396 | one more envelope extends what a caller has seen by its routing, and nothing after the end |
| IpcView.StreamSeesAll | src/adapters/ipc.js:264-345 | once a chunk was emitted, a streaming caller sees chunks in order and then the handler's own reply |
| IpcView.StreamIsFaithfulIff | src/adapters/ipc.js:327-344 | exactly when a streaming caller sees the emitted chunks and the handler's own reply: a chunk was emitted, the reply is an error, or the value does not look like a frame |
| IpcView.PlainIsFaithfulIff | src/adapters/ipc.js:374-395 | exactly when a plain caller is given the last thing on the wire, value or error: every chunk has a payload, and an unwrapped value is present and no chunk frame |
| IpcRun.EnvelopeKeepsAgreement | src/adapters/ipc.js:247-396 | routing an envelope keeps a caller in agreement with what has reached it |
| IpcRun.StepIsSound | src/adapters/ipc.js:106-475 | every step of either side, delivery, loss while not listening, timer, start and stop keeps the invariant |
| IpcRun.RunIsSound | src/adapters/ipc.js:106-475 | and so does every interleaving |
| IpcRun.SettlesAtMostOnce | src/adapters/ipc.js:115-210 | each request is pending with an armed timer, or draining its chunks, or settled, never two of these: so it settles at most once and is out of the pending map by then |
| IpcRun.StreamIsExact | src/adapters/ipc.js:264-345 | a stream whose handler emitted a chunk delivers the emitted chunks in order, all before it resolves with the handler's value, if its adapter listened when it was made |
| IpcRun.EarlyStreamCanMissAChunk | src/adapters/ipc.js:106-110 | why it must have listened: a concrete run that resolves without the first chunk |
| IpcLoss.StepIsThin | src/adapters/ipc.js:106-475 | every step of either side keeps the bound of what a stream has received by the envelopes that reached it |
| IpcLoss.StreamIsExactIff | src/adapters/ipc.js:106-345 | under every interleaving: a stream whose handler emitted a chunk resolves with the handler's own value only, and then has delivered exactly the emitted chunks iff no envelope was lost while it was pending |
| IpcEffects.TimerEffect | src/adapters/ipc.js:177-190 | in every reachable state: a timer that fires rejects its own pending request as timed out, what was delivered stays, and nothing else changes |
| IpcEffects.StopEffect | src/adapters/ipc.js:115-124 | stopping a listening adapter rejects exactly the pending requests as stopped |
| IpcEffects.SendEffect | src/adapters/ipc.js:161-210 | a new request waits with its timer armed and is on its way, or is rejected at once if sending throws |
| IpcEffects.DeliveryEffect | src/adapters/ipc.js:219-396 | what a pending caller makes of each envelope, streaming or not, and that any other caller ignores it |
| IpcEffects.ChunkEffect | src/adapters/ipc.js:311-344 | the chunk chain delivers one chunk at a time, in order of arrival |
| IpcEffects.DrainEffect | src/adapters/ipc.js:311-344 | once the chain is empty a stream that has its end settles with it |
| IpcEffects.RequestLossEffect | src/adapters/ipc.js:161-210 | a request on its way may be gone before the other side sees it, and nothing else changes |
| IpcEffects.ArrivalEffect | src/adapters/ipc.js:403-425 | a request that arrives starts its handler or is refused with METHOD_NOT_FOUND |
| IpcEffects.EmitEffect | src/adapters/ipc.js:427-445 | a chunk goes out as a partial frame, before the reply or after it |
| IpcEffects.FinishEffect | src/adapters/ipc.js:446-475 | the reply goes out as it is, or in a done frame if a chunk was emitted before |
| IpcAdapter.BaseIpcAdapter.SendRequest | src/adapters/ipc.js:161-210 | a new entry with an armed timer, or a rejection when sending throws |
| IpcAdapter.BaseIpcAdapter.HandleResponse | src/adapters/ipc.js:219-396 | the router in place equals the routing of the model and touches no other request |
| IpcAdapter.BaseIpcAdapter.HandleTimeout | src/adapters/ipc.js:177-190 | the timer removes its own entry and timer and rejects its promise as timed out |
| IpcAdapter.BaseIpcAdapter.Stop | src/adapters/ipc.js:115-124 | stop rejects every pending promise as stopped, clears entries and timers, and does nothing on an adapter that was not started |
| IpcAdapter.BaseIpcAdapter.DrainChain | src/adapters/ipc.js:311-344 | the chunk chain delivers what was queued in order and only then resolves |
| IpcAdapter.BaseIpcAdapter.HandleRequest | src/adapters/ipc.js:403-475 | the envelopes of a handler: its chunks, then the value, wrapped exactly when a chunk was emitted, then the chunks it emits afterwards |
| Breakpoints.AssertBpInvariant | src/ce/context-payload-builder.js:121-139 | the one-pass check accepts exactly the breakpoints that start set, have nulls only at the end and do not decrease |
| Breakpoints.BuildCacheControlMarkers | src/ce/context-payload-builder.js:155-168 | the markers are the strict records of the positions, and it fails exactly when there are more than four |
| Breakpoints.RecordsIncrease | src/ce/context-payload-builder.js:155-168 | marker positions strictly increase |
| Breakpoints.RecordsMark | src/ce/context-payload-builder.js:155-168 | no position of well placed breakpoints is lost |
| Breakpoints.ApplyCacheMarkers | src/ce/context-payload-builder.js:182-216 | it fails exactly when a marker is out of range; otherwise exactly the marked messages are converted |
| Breakpoints.MarkingKeepsText | src/ce/context-payload-builder.js:182-216 | marking keeps every text: plain text becomes one cached part, of parts the last one is cached |
| Breakpoints.FourAreFine | src/ce/context-payload-builder.js:121-216 | well placed breakpoints in range give at most four strictly increasing markers that can always be applied |
| ContextMessages.EstimateConversationTokens | src/ai/token-estimator.js:11-32 | the nested loops compute the sum over messages |
| ContextMessages.TokensAdd | src/ai/token-estimator.js:11-32 | the estimate is additive over concatenation |
| ContextMessages.TokensByParts | src/ai/token-estimator.js:11-32 | a message is estimated part by part, each text a third of its length rounded up on its own |
| Compaction.SplitBlocks | src/ce/context-engine.js:1291-1295 | the loop cuts the turns into blocks |
| Compaction.BlocksPartition | src/ce/context-engine.js:1291-1295 | the blocks in order are the turns, five to a block, the last of one to five |
| Compaction.ContextEngine.CompactOneBlock | src/ce/context-engine.js:1368-1425 | one retry, then failure; the output is the block itself, nothing, or its summary, as the verdict says |
| Compaction.ContextEngine.CompactZoneCMid | src/ce/context-engine.js:1287-1359 | the output is the concatenation, in order, of one image per block; blocks that failed or were not tried are verbatim; the breaker ends as specified |
| Compaction.BreakerStaysSane | src/ce/context-engine.js:1297-1356 | paused exactly at three failures, never more, and at most two channel calls a block |
| Compaction.BreakerIsSaneForever | src/ce/context-engine.js:1287-1359 | that holds over any sequence of compactions and channel failures |
| Compaction.ProbeDecides | src/ce/context-engine.js:1301-1334 | a compaction that starts paused keeps every block and its pause exactly if its probe fails; otherwise the first block gets the probe's verdict and the others are decided with all failures forgotten |
| Compaction.HealthyChannelDecidesAll | src/ce/context-engine.js:1297-1334 | with a channel that does not fail, block i gets the verdict of call i, and earlier failures are forgotten |
| Compaction.FailedProbeKeepsTurns | src/ce/context-engine.js:1311-1319 | a failed probe makes exactly two channel calls and returns the turns as they were |
| Compaction.TripsAfterFailuresInARow | src/ce/context-engine.js:1335-1354 | as many failing blocks in a row as the breaker still allows trip it, and the channel is not asked again |
| Compaction.KeepsEverything | src/ce/context-engine.js:1338-1352 | with no verdict at all no turn is lost or repeated |
| Compaction.MiddleIsComposed | src/ce/context-engine.js:1287-1425 | the output is one piece for each block, in order: a kept block itself, nothing for a deleted one, one system message for a compacted one, the block itself without a verdict |
| Compaction.SameVerdictThroughout | src/ce/context-engine.js:1368-1425 | a channel that always keeps returns the turns, one that always deletes nothing, one that always compacts one system message for each block |
| Stage2.ZonesPartition | src/ce/context-engine.js:1130-1196 | front, mid and tail are the turns read, in order and without overlap, with the exact size of each for every length and turn count |
| Stage2.ReadsEnough | src/ce/context-engine.js:1111-1126 | what is read is a suffix with the last 20 turns and everything the Cerebellum has not consumed |
| Stage2.TailIsHistoryTail | src/ce/context-engine.js:1192-1196 | the tail is the end of the history wherever reading starts |
| Stage2.OrganizeContext | src/ce/context-engine.js:1111-1224 | the layout is exact (the incoming system prompt, the memory zone, front and tail verbatim, the compacted middle between), zone ends are in order and in range, each breakpoint stands at the end of its zone, and the breakpoint assertion never fails |
| Stage2.LayTurns | src/ce/context-engine.js:1170-1196 | the three pushes and the two zone ends they leave |
| Stage2.BuildInitialPayload | src/ce/context-payload-builder.js:39-107 | system prompt first, user message last, breakpoints only for zones that exist |
| Stage3.FilterIsPrefixIff | src/ce/stage3-compress.js:124-126 | filtering system messages takes a prefix iff the system messages come first |
| Stage3.DefaultPartition | src/ce/stage3-compress.js:121-128 | without a boundary the pinned messages and Zone C are the conversation |
| Stage3.ExplicitPartitionIff | src/ce/stage3-compress.js:124-128 | with an explicit boundary they are the conversation iff, among messages 1 to zoneBEnd, the system messages come first |
| Stage3.PinnedExactly | src/ce/stage3-compress.js:121-128 | an explicit boundary pins the first message and exactly the system messages up to it, in order |
| Stage3.PinnedByDefault | src/ce/stage3-compress.js:121-128 | the default pins the first message, and the second one if it is a system message; what is left follows as many messages |
| Stage3.CompressChunks | src/ce/stage3-compress.js:136-148 | each chunk is compressed on its own and the images are concatenated in order |
| Stage3.CompressedIsComposed | src/ce/stage3-compress.js:56-148 | the compressed Zone C is one piece for each chunk, in order, as the chunk's first verdict in two attempts says |
| Stage3.Truncate | src/ce/stage3-compress.js:150-166 | the loop keeps the longest suffix that fits, and the check after it never throws |
| Stage3.Stage3ExtremeCompress | src/ce/stage3-compress.js:111-182 | it fails exactly when the pinned messages are over the threshold; otherwise pinned messages plus the longest fitting suffix, under the threshold, and `truncated` iff something was dropped |
| Stage3.LongerSuffixesAreOver | src/ce/stage3-compress.js:155-160 | no longer suffix would have fitted |
| RateLimit.AdmissionsAreSpaced | src/lib/llm-provider/retry.js:47-76 | under any interleaving of callers, admissions rpm or more apart in order are a minute apart, and the stored list is a suffix of all admissions, no longer than rpm |
| RateLimit.StepIsGood | src/lib/llm-provider/retry.js:59-75 | each stretch of a caller keeps that invariant |
| RateLimit.WaitIsPositive | src/lib/llm-provider/retry.js:66-73 | a full list always asks for a positive wait, so nobody is admitted beyond the limit |
| RateLimit.WaitIsEnough | src/lib/llm-provider/retry.js:67-71 | a caller that slept as long as it was told is admitted, unless another took its place |
| RateLimit.StepRecords | src/lib/llm-provider/retry.js:47-76 | an admission is recorded at the second reading of the clock, and of the earlier calls exactly those less than a minute old are left |
| RateLimit.WaitIsExact | src/lib/llm-provider/retry.js:67-71 | a caller sleeps until a tenth of a second after the oldest call is a minute old |
| RateLimit.RateLimiter.WaitForRateLimit | src/lib/llm-provider/retry.js:47-76 | the pruning loop and its outcome equal one step, per model, and other models are untouched |
| CursorWindows.DenseIndices | src/stores/agent-core-db/session-history-store.js:43-71 | row i of a session carries index i and turn i |
| CursorWindows.EachIndexOnce | src/stores/agent-core-db/session-history-store.js:43-71 | indices of one session strictly increase |
| CursorWindows.SessionHistoryStore.Append | src/stores/agent-core-db/session-history-store.js:43-71 | the next dense index, one turn more for that session and none for another; a frozen session is refused |
| CursorWindows.SessionHistoryStore.NextIndex | src/stores/agent-core-db/session-history-store.js:48-50 | the largest index plus one is the number of turns |
| CursorWindows.SessionHistoryStore.ReadRange | src/stores/agent-core-db/session-history-store.js:78-94 | exactly the turns of the inclusive range that exist |
| CursorWindows.SessionHistoryStore.Length | src/stores/agent-core-db/session-history-store.js:101-107 | the number of turns of the session |
| CursorWindows.CursorLayer.BeginTick | src/cerebellum/layer1.js:66-80 | a tick reads exactly the turns at or after the cursor |
| CursorWindows.CursorLayer.CommitTick | src/cerebellum/layer1.js:101-135 | a commit moves the cursor to the length read at the beginning |
| CursorWindows.NextIsGood | src/cerebellum/layer2.js:157-217 | ticks, failures and appends at any point keep the windows contiguous and the cursor within the history |
| CursorWindows.TickEffect | src/cerebellum/layer1.js:66-136 | what beginning, committing and failing a tick each do to the window and the cursor |
| CursorWindows.WindowsCoverExactly | src/cerebellum/layer2.js:157-217 | the committed windows cover exactly the turns before the cursor, each once |
| CursorWindows.EveryTurnOnce | src/cerebellum/layer1.js:66-136 | over every run of one layer, with its cursor at the end the windows cover the whole history, each turn once |
| ArchiveWindows.StepKeepsCursors | src/supervisor/index.js:88-535 | whatever the Supervisor does leaves a session's cursors alone; a new row starts at 0 and the history does not shrink |
| ArchiveWindows.RunIsTied | src/cerebellum/layer2.js:157-217 | over every run of the Supervisor and both layers the stored cursors are those up to which the layers have consumed the history |
| ArchiveWindows.ArchivedIffConsumed | src/supervisor/index.js:213-232 | after every run the check archives a Dormant session iff it has a row and each turn of its history lies in exactly one committed window of each layer |
| ArchiveWindows.OnlyTheCheckArchives | src/supervisor/index.js:88-535 | no step but the check of a session archives it |
| ArchiveWindows.ArchivingFindsAllConsumed | src/supervisor/index.js:213-232 | whenever a step of a run archives the session, each of its turns lies in exactly one committed window of each layer |

## Left out

- MemoryTables.StepKeepsConsistent: covers write, update, relateTags, unrelateTags, delete, prune, merge and tag deletion; createTag and renameTag, which the UNIQUE name column guards, and promote, which changes a layer only, are left out.
- Supervision.FreshRunIsSafe: assumes that random UUIDs are unused and that each timer callback runs to its end before another; a cold start from a filled store, `shutdown`, callbacks that throw or overlap, and delays beyond 2^31 ms are not modelled.
- QuietSession.QuietSessionReachesDormant: counts expiries; how late the runtime may run a due timer is not modelled.
- IpcRun.StreamIsExact: assumes that the peer's sends are not dropped by its transport while the channel is up, and takes an `onChunk` call together with its awaited completion as one step; each adapter appears in one role, the other direction being the same with roles exchanged.
- ChatToolStream.StreamingRefines: is about replies whose message has either `tool_calls` or a legacy `function_call`, not both (the stream folds the latter into the call of index 0, in the order of arrival), and no other fields besides its text.
- ChatToolStream.SameSuspensionRow: of a run that a stream cannot spell and that the loop answers with an error it says nothing, because no transcript is seen then and the two errors may or may not be the same.
- Stage3.Stage3ExtremeCompress: takes the 85% threshold as an exact fraction; the rounding of the floating-point product is not modelled.
- RateLimit.AdmissionsAreSpaced: one fixed whole number rpm; retries and back-off are left out.
- ArchiveWindows.ArchivedIffConsumed: the memory writes between reading a window and committing it, and the batches of layer 2, are not modelled; ticks of one layer do not overlap.
- Compaction.ContextEngine.CompactZoneCMid: prompts and the parsing of the channel's text are replaced by its verdict.
- A daemon without a suspensions store: both handlers then refuse to suspend; and the task id, session id and idempotency key columns of a suspension row, which no modelled code reads.
- Getters, request validators, configuration resolution, tool execution and all plumbing around the modelled code: long but easy.
- Prompt builders and parsers of LLM text: fixed strings without an inverse.
- Decay scores, promotion scores and similarity: real-number formulas whose rounding is the point; `prune` takes the scores as given.
- The topological rank stored in a tag's `level`: relateTags sets the direct child only, so no invariant holds of it.
- getTagTree, findByTags, recent and search: simpler queries than the ones modelled.
- JSON encoding of stored rows: taken as the identity on the values stored.
- The promise-chain lock and the process lifecycle: mutual exclusion is assumed.
- Summary periods and calendar arithmetic of layer 2.
- The Brain call inside receiveEvent: its effects on history are the append step, its overflow callback a step of its own.
- Origins in SuspensionBudget are a record of the history that the program itself does not keep.
