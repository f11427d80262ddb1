# Verified model of FlowPartner's core

FlowPartner is a desktop assistant: a Go backend keeps snapshots of a workspace, guards tools, keys and settings, and
relays model replies; a Python agent runs turns of model calls and tool calls, with agents that call each other. This
Dafny project models five cores of it and proves what they promise, over every input, schedule and run.

| files | what they model |
|---|---|
| `FileTree`, `Exclude`, `Capture`, `Workspace`, `Restore`, `RoundTrip`, `Removal`, `Project`, `Retain`, `Nesting`, `SnapshotManager` | the snapshot subsystem: trees as maps from paths to nodes, capture as a sequence of crashable disk writes, restore, removals that stop half way, whole runs of captures, restores and cleanups, retention, and the manager's goroutines as an interleaved step system |
| `ShellLexer`, `DeleteGuard` | the shell tokenizer and the recursive detection of deletion commands |
| `ToolRuntime`, `Steering`, `Conversation`, `TurnEngine`, `Session`, `AgentRecursion` | the agent turn machine: parallel tools, the steering queue, message lists, the turn loop with its events, the session history, agents calling agents |
| `LlmStream`, `DeltaReassembly` | streaming a reply with one retry, forwarding it, and putting fragmented tool calls together |
| `Approval`, `ReverseRequests`, `Keystore`, `Settings`, `ModelConfigs` | one-shot approvals, reverse requests, the unlock rate limit, settings normalisation, config names |

`Wrappers`, `Text` and `Decimal` hold shared helpers. Objects whose methods update their fields are classes; pure
decisions are functions; walks, scans and loops are methods with invariants. Where goroutines or tasks interleave, a
`Step` function takes one atomic section at a time and the main lemmas quantify over all action sequences.

What the outside decides is a parameter or a nondeterministic choice: disk failures (`budget`, `ok`), clocks, model
replies, tool results and schedules (`World`, `pick`), the transport (`Attempt`), decryption (`decrypts`), random ids
(`newId`, `itemId`), JSON recognition (`isJson`, `usageOf`, `Content.Json`), and whether a file could be written.

## Findings

These promises fail in the code as it is; the exact condition is proved next to each.

- A capture that dies half way leaves a directory that counts as complete if, and only if, the workspace holds a
  top-level `manifest.json` that parses as a complete manifest (`CrashSafeIff`, `DecoyLosesFiles`, `DecoyWorkspace`).
- A cleanup that fails or dies inside the removal of a whole snapshot leaves a directory that counts as complete and is
  not whole if, and only if, the manifest is left and a captured file, or a directory that holds a recorded link, is
  gone (`RemovalKeepsSoundIff`). Restoring such a directory with deletion takes a missing file from a workspace that
  has not changed (`FileRemovedFirst`).
- Capture loses an eligible file just if it is a top-level `manifest.json`, or lies directly in a workspace whose own
  basename is an excluded name; deleteExtras after such a capture removes it (`CaptureIsFaithfulIff`,
  `UnchangedTreeKeepsFilesIff`).
- `matchPattern` agrees with glob matching on every name iff the pattern has stars at its ends only and is not the
  pattern of two stars (`MatchPatternIsGlobIff`). No pattern of the code's own table is affected (`SecretsAreGlobs`).
- The nesting check accepts any pair with exactly one side being the root of the file system (`AcceptedIff`).
- Item completions name the started items iff the call ids of the reply differ (`ReportedItemsMatchIff`).
- Loading settings leaves the flat fields empty although an activatable config has a key, just if no usable config is
  active and the first config with a key has an empty id (`ConsistentIff`, `UnrepairedExample`).
- Creating a config searches a name among the configs that have an id. With u the first candidate for the requested
  name that is free among those, names stay distinct iff no config without an id is called u (`CreateKeepsNamesIff`);
  a request for the name of a config without an id is the example (`IdlessNameIsTaken`).
- Updating a config searches a name among the configs with another id, so names stay distinct iff no other config with
  the same id has the name found (`UpdateKeepsNamesIff`); two configs without an id are the example
  (`IdlessUpdateTakesName`).
- The report of blocked paths is longer than five iff a deletion command with a path follows after five paths were
  named and no nested command with a deletion comes after it (`OverflowIff`); `rm a b c d e ; rm f` is an
  example (`SixPathsReported`).
- A reverse request stays pending when the deadline of the one who waits passes: a later answer is still taken and
  reaches nobody (`LateAnswerIsLost`), although a comment counts a timeout among the ways to resolve a request
  (backend/internal/thread/reverse.go:77).

At this commit nothing but tests resolves an approval or cancels a thread's approvals; the model takes both as
operations of the gate.

Where code and comments disagree the code is followed: `IsRetryable` also accepts timeouts, because their code is
above 500 (backend/internal/llm/error.go:112-114).

## Model

| member | source | states |
|---|---|---|
| FileTree.Walk | backend/internal/snapshot/capture.go:77-86 | a directory walk visits every entry once, parents before children, in some order |
| Exclude.PrunedIff | backend/internal/snapshot/exclude.go:52-61 | a walk prunes an entry iff it is, or lies below, a directory with an excluded name |
| Exclude.MatchPatternIsGlobIff | backend/internal/snapshot/exclude.go:86-101 | pattern matching agrees with a reference glob semantics on every name iff the pattern has stars at its ends only and is not "**" |
| Exclude.SecretsAreGlobs | backend/internal/snapshot/exclude.go:74-83 | a file is secret iff its name is one of the table's patterns read as a glob |
| SnapshotCapture.Store.NewSnapshotId | backend/internal/snapshot/manifest.go:77-88 | the search ends with the first unused id of the numbered sequence |
| SnapshotCapture.ReplayWalk | backend/internal/snapshot/capture.go:77-152 | in whatever order the walk runs, its copies add up to the same image of the workspace |
| SnapshotCapture.WalkAndCopy | backend/internal/snapshot/capture.go:77-152 | a walk with a budget of disk writes stops after just that prefix of its copies and counts what it copied, skipped and linked |
| SnapshotCapture.CaptureInto | backend/internal/snapshot/capture.go:28-75 | the exact image and manifest, nothing at all, or a prefix of the copies is on disk, at most empty directories if there was nothing to save; it stops early exactly when writes run out or the manifest cannot be placed |
| SnapshotCapture.Capture | backend/internal/snapshot/capture.go:14-75 | also: no earlier snapshot changes; the new directory reads as complete iff the capture went through, unless it stopped with a decoy, and then it is the whole workspace |
| SnapshotCapture.StoppedIsReadable | backend/internal/snapshot/capture.go:77-152 | at every crash point the directory is a tree of directories and regular files |
| SnapshotCapture.CrashSafeIff | backend/internal/snapshot/capture.go:186-205 | at every crash point the directory reads as incomplete, iff the workspace has no decoy manifest |
| SnapshotCapture.DecoyLosesFiles | backend/internal/snapshot/capture.go:112-149 | with a decoy there is a crash point at which the directory reads as complete and lacks every file not yet reached |
| SnapshotCapture.DecoyWorkspace | backend/internal/snapshot/manifest.go:104-107 | a concrete workspace with a decoy |
| SnapshotCapture.SavedIsValid | backend/internal/snapshot/capture.go:28-75 | a saved snapshot is complete, has the captured files with their contents, count and size, and records each link once |
| Workspaces.Workspace.MkdirAll | backend/internal/snapshot/restore.go:141-157 | creates the missing directories only; fails on a file in the way |
| Workspaces.Workspace.EnsureNoSymlinkComponents | backend/internal/snapshot/restore.go:159-188 | removes links on the way and nothing else, and leaves a path free of links |
| SnapshotRestore.WriteBack | backend/internal/snapshot/restore.go:104-139 | for any readable directory: on success the files are those before overwritten by all of the snapshot's, with no link on any way, and nothing was written through a link |
| SnapshotRestore.DeleteExtras | backend/internal/snapshot/restore.go:190-270 | removes exactly the extras, each reported once, and no other entry |
| SnapshotRestore.RebuildSymlinks | backend/internal/snapshot/restore.go:272-291 | every recorded link is back or reported; files change only where a link goes |
| SnapshotRestore.Restore | backend/internal/snapshot/restore.go:34-102 | for any readable directory, complete or partial: refusals change nothing; success gives exactly the restored files, counts and deletions, and takes a faithful pre-snapshot first; from a valid snapshot all links are back or reported and nothing is written outside the workspace |
| SnapshotRoundTrip.RestoreYieldsSnapshot | backend/internal/snapshot/restore.go:190-270 | restoring with deletion leaves exactly the snapshot's files among the eligible ones |
| SnapshotRoundTrip.RoundTrip | backend/internal/snapshot/restore.go:34-102 | capture, any later workspace, restore: the eligible files are the captured ones, path for path with equal contents |
| SnapshotRoundTrip.CaptureIsFaithfulIff | backend/internal/snapshot/capture.go:112-152 | the captured files are all eligible files iff none sits at the manifest's place or is lost to an excluded root name |
| SnapshotRoundTrip.UnchangedTreeKeepsFilesIff | backend/internal/snapshot/restore.go:190-270 | deleteExtras right after a capture removes only links, under exactly the same condition |
| SnapshotRoundTrip.RestoreAndUndo | backend/internal/snapshot/restore.go:55-82 | whatever readable directory was restored first, restoring the pre-restore snapshot gives back the files held before the first restore |
| SnapshotRoundTrip.ProtectedFiles | backend/internal/snapshot/restore.go:351-384 | lists exactly the protected entries with their reasons |
| SnapshotRoundTrip.ProtectedNeverDeleted | backend/internal/snapshot/restore.go:351-384 | nothing listed, and nothing below a listed directory, is deleted |
| SnapshotRoundTrip.FatesPartition | backend/internal/snapshot/restore.go:190-270 | every non-directory is in exactly one of excluded, skipped, in the snapshot, deleted, and what each means |
| TreeRemoval.RemoveEntries | backend/internal/snapshot/retain.go:34-36 | a removal takes entries one by one, each once it is empty, and may stop after any number of them |
| TreeRemoval.RemainsIff | backend/internal/snapshot/retain.go:34-36 | a removal that stops may leave exactly the trees of whole entries with the directories above them |
| SnapshotProject.StoppedRemovalIff | backend/internal/snapshot/retain.go:56-58 | what a stopped removal leaves of a whole snapshot misleads nobody iff the manifest is gone or the rest is intact |
| SnapshotProject.RemovalKeepsSoundIff | backend/internal/snapshot/retain.go:30-90 | a stopped removal keeps the store sound iff the directory was not complete, its manifest is gone, or the rest is intact |
| SnapshotProject.FileRemovedFirst | backend/internal/snapshot/retain.go:56-58 | with any captured file removed first, the rest is a valid snapshot, and restoring it takes the file from an unchanged workspace |
| SnapshotProject.Project.Remove | backend/internal/snapshot/retain.go:30-90 | over any run: the removal of one directory, stopped anywhere, breaks just that one, under exactly that condition |
| SnapshotProject.Project.Snapshot | backend/internal/snapshot/manager.go:307-342 | over any run: a capture that may crash leaves a directory that passes for complete only if it is whole, unless it stopped with a decoy, which breaks just that directory |
| SnapshotProject.Project.RestoreFrom | backend/internal/snapshot/manager.go:84-125 | over any run: a restore of a directory that is not broken reads a whole captured workspace, ends with its files, and writes nothing through a link |
| Retain.Shelf.Cleanup | backend/internal/snapshot/retain.go:18-91 | a successful cleanup leaves exactly a newest suffix of the unexpired complete snapshots; `deleted` is exactly what went, without duplicates, also on failure; only what has to go is touched, and a failed removal may leave that one directory reduced |
| Retain.EvictionExact | backend/internal/snapshot/retain.go:63-90 | eviction keeps the newest snapshot and ends within the cap or with that one alone |
| Retain.EvictionLeast | backend/internal/snapshot/retain.go:63-90 | no smaller number of evictions meets the cap |
| Retain.EvictionSettles | backend/internal/snapshot/retain.go:63-90 | a second eviction removes nothing |
| Nesting.ValidateNoNesting | backend/internal/snapshot/manager.go:593-612 | accepts iff neither directory is or contains the other, or exactly one is the file system's root |
| Nesting.AcceptedIff | backend/internal/snapshot/manager.go:593-612 | the comparison of path strings decides nesting of paths, with the exception spelled out |
| Nesting.PrefixIffAbove | backend/internal/snapshot/manager.go:602-610 | a path string followed by a separator is a prefix of just the paths below it |
| SnapshotManager.InvAlways | backend/internal/snapshot/manager.go:165-381 | over every interleaving: flags imply a live runner, Queued equals pendingManual, no trigger is lost, captures never exceed triggers |
| SnapshotManager.OperationsNeverOverlap | backend/internal/snapshot/manager.go:307-342 | captures, restores and cleanups never overlap |
| SnapshotManager.CleanupSparesCaptures | backend/internal/snapshot/manager.go:537-551 | no cleanup meets a capture in flight |
| SnapshotManager.Manager.TriggerSnapshot | backend/internal/snapshot/manager.go:283-305 | a trigger sets a flag or starts a runner, and keeps the invariant |
| SnapshotManager.Manager.FinishSnapshot | backend/internal/snapshot/manager.go:344-381 | a pending manual request comes before a rearm, each starts one runner |
| SnapshotManager.Manager.Reconfigure | backend/internal/snapshot/manager.go:165-262 | reconfiguration resets the flags and starts one cleanup |
| SnapshotManager.SortNewestFirst | backend/internal/snapshot/manager.go:651-659 | the in-place exchange sort orders newest first and permutes |
| ShellLexer.ReadOperator | backend/internal/tools/delete_guard.go:260-268 | the table search finds the longest operator at the position |
| ShellLexer.ReadQuoted | backend/internal/tools/delete_guard.go:238-257 | reads up to the closing quote or the end, with backslash pairs kept |
| ShellLexer.TokenizeLine | backend/internal/tools/delete_guard.go:173-235 | the loop computes the reference lexer |
| ShellLexer.TokensTile | backend/internal/tools/delete_guard.go:173-235 | tokens with blanks between them and a comment tail spell the line |
| ShellLexer.TokensShaped | backend/internal/tools/delete_guard.go:173-257 | how content, text and quoting of every token hang together |
| ShellLexer.LexRender | backend/internal/tools/delete_guard.go:173-235 | lexing the written-out tokens gives the tokens back |
| DeleteGuard.ReadCommand | backend/internal/tools/delete_guard.go:125-169 | the tokens of the lines outside here-documents, in order |
| DeleteGuard.AssignCommandPositions | backend/internal/tools/delete_guard.go:271-295 | marks exactly the words where a command name is expected |
| DeleteGuard.JumpKeeps | backend/internal/tools/delete_guard.go:311-342 | the skip-ahead jumps pass over no command and lose no command position |
| DeleteGuard.AnalyzeDeletion | backend/internal/tools/delete_guard.go:121-170 | Blocked iff the command contains a deletion as defined declaratively, at this depth; the tool is that of the first one; the report begins with the first five paths that its deletions name, nested ones included |
| DeleteGuard.AnalyzeTokens | backend/internal/tools/delete_guard.go:298-386 | the scan reports the first witness of the token list, is blocked iff there is one, and reports just the paths of the witnesses |
| DeleteGuard.ToolIffBlocked | backend/internal/tools/delete_guard.go:125-170 | a tool is named exactly if the command contains a deletion |
| DeleteGuard.CollectPaths | backend/internal/tools/delete_guard.go:368-381 | appends the unquoted words up to the next operator that are no options, up to the fifth path in all but one at least |
| DeleteGuard.ReportStartsRight | backend/internal/tools/delete_guard.go:368-399 | cutting and merging never change the first five paths |
| DeleteGuard.OverflowIff | backend/internal/tools/delete_guard.go:377-399 | exactly when more than five paths are reported |
| DeleteGuard.SixPathsReported | backend/internal/tools/delete_guard.go:377-381 | for the command `rm a b c d e ; rm f` more than five paths are reported |
| DeleteGuard.TwoRemovalsReported | backend/internal/tools/delete_guard.go:377-381 | so it is for every text of that form |
| DeleteGuard.ArgumentIsShorter | backend/internal/tools/delete_guard.go:328-341 | the argument analysed recursively is strictly shorter than its command |
| ToolRuntime.InvAlways | agent/src/agent/core/tool_runtime.py:41-150 | under every schedule, interrupt and cancellation from outside: permits are conserved and results answer their own calls |
| ToolRuntime.ConcurrencyLimits | agent/src/agent/core/tool_runtime.py:50-51 | never more than four tools run, nor two write tools |
| ToolRuntime.SomeoneCanMove | agent/src/agent/core/tool_runtime.py:98-109 | no unfinished state is deadlocked |
| ToolRuntime.StepDecreases | agent/src/agent/core/tool_runtime.py:53-120 | every step lowers a measure |
| ToolRuntime.SchedulesAreShort | agent/src/agent/core/tool_runtime.py:53-120 | a batch of n calls ends within 4n+1 steps |
| ToolRuntime.ParallelToolRuntime.Advance | agent/src/agent/core/tool_runtime.py:92-150 | each stretch between awaits performs its step on the runtime's fields |
| ToolRuntime.RunBatch | agent/src/agent/core/tool_runtime.py:53-90 | one result per call, in call order, with the call's id and name, being the results of the scheduled run; a result other than the cancelled one is what the tool said |
| Steering.SteerQueue.Push | agent/src/agent/core/steer.py:21-30 | drops the oldest when full: the queue is the last 64 inputs |
| Steering.SteerQueue.Drain | agent/src/agent/core/steer.py:32-39 | returns the last 64 pushes in order and empties the queue |
| Conversation.WellFormedIff | agent/src/agent/core/turn_engine.py:222-253 | the incremental check of message lists equals the positional definition: each call answered at once, in order, no stray answer |
| Conversation.RoundKeeps | agent/src/agent/core/turn_engine.py:222-253 | an assistant message followed by its results keeps a list well formed |
| Conversation.RecordingKeeps | agent/src/agent/core/react_agent.py:242-255 | dropping the user messages of a turn breaks no round |
| TurnEngine.Engine.Run | agent/src/agent/core/turn_engine.py:124-184 | from any history: every list given to the model is the one the events tell, with whole rounds since the opening, and well formed if the history is; replies, interjections, tool runs and stops are those of the outside; at most 14 calls, none when stuck or interrupted; with distinct call ids the events follow the grammar, with totals summed over the replies and one final event |
| TurnEngine.Engine.SampleLoop | agent/src/agent/core/turn_engine.py:186-262 | the loop keeps the list well formed and equal to what the events tell, only extends it, stops within its bound, and sees every interrupt |
| TurnEngine.Engine.Sample | agent/src/agent/core/turn_engine.py:209-258 | one round makes one model call, records its reply and the results of its tools, and returns to a state where another may follow |
| TurnEngine.Engine.ExecuteTools | agent/src/agent/core/turn_engine.py:281-320 | announces all items, then completes them in call order; the results are those of the scheduled run of the batch, and the events tell just their tool messages |
| TurnEngine.Engine.DrainSteering | agent/src/agent/core/turn_engine.py:264-271 | appends the last 64 interjections since the last boundary as user messages |
| TurnEngine.Engine.CheckLoopTermination | agent/src/agent/core/turn_engine.py:355-380 | stops at the iteration limit, the deadline, or three equal calls in a row |
| TurnEngine.BatchSeen | agent/src/agent/core/turn_engine.py:281-320 | a batch tells the tool messages of its results, leaves the totals alone, and fits the grammar if call ids differ |
| TurnEngine.SoundIff | agent/src/agent/core/turn_engine.py:186-262 | an observer of the events finds the turn sound iff every list given to the model was well formed |
| TurnEngine.ReportedItemsMatchIff | agent/src/agent/core/turn_engine.py:288-318 | completed items are the started ones iff call ids differ |
| Session.RunAgent | agent/src/agent/core/react_agent.py:165-223 | the turn starts from any history and the forced round; what is recorded is the user's message and what agent and tools said, and is well formed whatever the history; it is recorded just if the turn came to its end |
| Session.RecordedIsWellFormed | agent/src/agent/core/react_agent.py:242-255 | what is recorded of whole rounds is well formed on its own |
| Session.RecordKeeps | agent/src/agent/core/react_agent.py:86-255 | behind any history, the record of a turn with its forced round is well formed |
| Session.SystemPromptKeeps | agent/src/agent/core/react_agent.py:86-87 | the system prompt before a well-formed list keeps it well formed |
| Session.LoadAfterAppend | agent/src/agent/grpc_client.py:659-682 | loading after a turn was appended gives the earlier messages and then the turn |
| Session.Client.StartChat | agent/src/agent/grpc_client.py:704-794 | a chat's turn, from any history, sent or loaded, changes no file and leaves a well-formed record to append |
| Session.Client.FinishChat | agent/src/agent/grpc_client.py:803-811 | the file, whatever other chats made of it meanwhile, grows by just the chat's record; every file stays well formed over any interleaving of chats |
| Session.Client.HandleChat | agent/src/agent/grpc_client.py:704-811 | a chat that no other interrupts, from any history, sent or loaded: the file of the session grows by just the record of the turn; other sessions' files do not change |
| AgentRecursion.RunAgent | agent/src/agent/core/turn_engine.py:186-262 | the model calls of an agent and all it calls stay within the bound for its remaining levels, which a busy world attains |
| AgentRecursion.AgentTool | agent/src/agent/tools/agent_tool.py:23-52 | beyond the depth limit an agent makes no model call |
| AgentRecursion.CallTools | agent/src/agent/core/agent_registry.py:82-117 | each call of a reply adds at most one agent of the next level; an agent cannot call itself |
| AgentRecursion.Chat | agent/src/agent/grpc_client.py:740-793 | one chat with its forced call makes at most 14 times the sum of (14k+1)^i over the levels, whatever agents call each other; without a forced call the sum of (14k)^i is attained |
| AgentRecursion.BoundIsPowerSum | agent/src/agent/core/subagent_runner.py:125-153 | the bound in closed form |
| LlmStream.Channel.DoStream | backend/internal/llm/client.go:142-241 | one attempt sends its data frames in order and a final chunk only if it finished |
| LlmStream.Channel.StreamWithRetry | backend/internal/llm/client.go:104-140 | at most two attempts; a second only after a retryable failure with nothing sent; the channel holds one attempt's frames and one final chunk |
| LlmStream.CallLLM | backend/internal/handler/agent.go:190-217 | forwards a prefix of the expected responses, all of them if every send is taken |
| LlmStream.StreamShape | backend/internal/handler/agent.go:190-217 | the agent sees one attempt's text, none of it empty or usage, then at most one error or the usage, last |
| DeltaReassembly.EntryIsOwnFold | agent/src/agent/grpc_client.py:473-494 | an entry is the fold of its own index's fragments |
| DeltaReassembly.InterleavingIrrelevant | agent/src/agent/grpc_client.py:473-494 | the entries do not depend on how indices are interleaved |
| DeltaReassembly.FragmentsAssemble | agent/src/agent/grpc_client.py:473-494 | any fragmentation of calls, interleaved in any way, assembles to the calls |
| DeltaReassembly.Receiver.Receive | agent/src/agent/grpc_client.py:438-545 | the first frame that is no delta decides: an error, a parse error, or an exception on JSON of another shape; without one, text events concatenate to the content and the kept calls come in index order |
| DeltaReassembly.RoundTrip | agent/src/agent/grpc_client.py:433-545 | fragmenting and receiving returns the calls in order, those with bad arguments or no name left out |
| DeltaReassembly.SortedKeys | agent/src/agent/grpc_client.py:506-509 | the indices of the table in ascending order, each once |
| Approvals.ConsumptionJustified | backend/internal/tools/approval.go:82-116 | over all runs a consumption follows a creation with the same thread, tool and path, the last decision on it allowed, and no other consumption uses it |
| Approvals.ConsumedOnce | backend/internal/tools/approval.go:112-115 | an approval is consumed at most once |
| Approvals.ConsumptionsWithinGrants | backend/internal/tools/approval.go:57-116 | consumptions are as many as consumed ids, all of them granted |
| Approvals.ApprovalManager.ResolveRequest | backend/internal/tools/approval.go:57-80 | succeeds just for the approval's own thread; performs the step |
| Approvals.ApprovalManager.ConsumeRequest | backend/internal/tools/approval.go:82-116 | succeeds just on a full match that is granted; performs the step |
| Approvals.ApprovalManager.CancelAll | backend/internal/tools/approval.go:118-128 | denies the thread's pending approvals and no other |
| Approvals.CheckPath | backend/internal/tools/executor.go:116-198 | a purge always asks, for a target in the trash; a file tool asks just for a single path outside the workspace and is cleared only if all it names lies inside; other tools never ask |
| Approvals.AgentHandler.ExecuteTool | backend/internal/handler/agent.go:316-357 | a call runs iff its check is clear or it uses up an approval for just this call |
| Approvals.AgentHandler.ResolveApproval | backend/internal/tools/approval.go:57-80 | a decision keeps the gate's invariant and executes nothing |
| Approvals.AgentHandler.CancelApprovals | backend/internal/tools/approval.go:118-128 | the end of a session keeps the gate's invariant and executes nothing |
| Approvals.AgentHandler.PurgesWithinGrants | backend/internal/handler/agent.go:316-350 | over any run of tool calls, decisions and cancellations, purges never outnumber granted approvals |
| ReverseRequests.InvAlways | backend/internal/thread/reverse.go:48-187 | under any race: created requests are pending or taken, one result each, decisions offered |
| ReverseRequests.IdsNeverReused | backend/internal/thread/reverse.go:48-74 | a new request gets an id no request ever had |
| ReverseRequests.ResultIsFinal | backend/internal/thread/reverse.go:78-115 | a delivered result stays, is for a created request, and is offered or an error |
| ReverseRequests.HeardIsFinal | backend/internal/thread/reverse.go:190-203 | waiting ends once, with an offered decision, an error, or the deadline |
| ReverseRequests.LateAnswerIsLost | backend/internal/thread/reverse.go:190-203 | after the deadline an answer is still taken and sent, and not received |
| ReverseRequests.NoResultDropped | backend/internal/thread/reverse.go:109-112 | a send never finds the channel full |
| ReverseRequests.SettledWhenIdle | backend/internal/thread/reverse.go:76-115 | with no goroutine under way, created requests are exactly the pending and the answered ones |
| ReverseRequests.Manager.ResolveServerRequest | backend/internal/thread/reverse.go:117-142 | answers with the decision if offered, else with an error |
| ReverseRequests.Manager.AbortAllPending | backend/internal/thread/reverse.go:175-187 | every pending request gets the error, answered ones keep theirs |
| Keystore.RateLimit | backend/internal/keystore/keystore.go:55-86 | in W seconds without a reset at most 5 + W/30 wrong passwords are tried, over any run |
| Keystore.FailuresArePaid | backend/internal/keystore/keystore.go:81-86 | from the fifth on every wrong password costs a full lockout |
| Keystore.KeyStore.VerifyPassword | backend/internal/keystore/keystore.go:55-71 | succeeds just if unlocked by time and the password decrypts; performs the step |
| Keystore.KeyStore.TryActivate | backend/internal/keystore/keystore.go:142-168 | switches the key just on success, else leaves it as it was |
| Keystore.KeyStore.SwitchKey | backend/internal/keystore/keystore.go:119-133 | overwrites the old key's bytes and holds the new key |
| Keystore.KeyStore.Lock | backend/internal/keystore/keystore.go:107-117 | overwrites the key's bytes and forgets it |
| Settings.LoadSettings | backend/internal/handler/settings.go:106-173 | loading computes the normalised settings |
| Settings.NormalizedTwice | backend/internal/handler/settings.go:106-173 | normalising twice equals once |
| Settings.NormalizedSettles | backend/internal/handler/settings.go:106-226 | after loading nothing is missing and the flat fields mirror the active config |
| Settings.ConsistentIff | backend/internal/handler/settings.go:162-173 | loading repairs the active config, except in exactly one situation |
| Settings.UnrepairedExample | backend/internal/handler/settings.go:165-170 | a concrete list that is not repaired |
| Settings.NothingResurrected | backend/internal/handler/settings.go:176-198 | an empty list without legacy fields stays empty |
| ModelConfigs.EnsureUniqueName | backend/internal/handler/model_config.go:347-364 | the first candidate no other config has; fails only if all thousand candidates are taken, so never below a thousand other configs |
| ModelConfigs.AllTakenMeansMany | backend/internal/handler/model_config.go:357-363 | the candidates differ, so taking them all needs a thousand configs |
| ModelConfigs.FirstFreeIsOne | backend/internal/handler/model_config.go:347-364 | there is only one first free candidate |
| ModelConfigs.CreateKeepsNamesIff | backend/internal/handler/model_config.go:105-113 | with u the first candidate for the requested name that is free among the configs with an id, creating keeps names distinct iff no config without id is called u |
| ModelConfigs.IdlessNameIsTaken | backend/internal/handler/model_config.go:105-113 | a request for the name of a config without id takes that name again |
| ModelConfigs.UpdateKeepsNamesIff | backend/internal/handler/model_config.go:156-188 | with a name free among the configs with another id, updating keeps names distinct iff no other config with the same id has it |
| ModelConfigs.IdlessUpdateTakesName | backend/internal/handler/model_config.go:156-188 | an update of one config without id takes the name of another |
| ModelConfigs.DeleteKeepsNames | backend/internal/handler/model_config.go:222-230 | deleting keeps names distinct from any list |
| ModelConfigs.ConfigHandler.Create | backend/internal/handler/model_config.go:56-123 | from any stored file: appends the config under the first free name; names stay distinct just if no config without id has it, and names and proper ids stay so |
| ModelConfigs.ConfigHandler.Update | backend/internal/handler/model_config.go:125-206 | from any stored file: replaces just the first config with the id, under the first free name, and keeps its key if none is given; names stay distinct just if no other config with that id has it, and proper names and ids stay so |
| ModelConfigs.ConfigHandler.Delete | backend/internal/handler/model_config.go:208-258 | from any stored file, also one that loading migrates: refuses ids that are empty or hold one of four characters, removes just the config with the id and activates the first of the rest if it was active; the next load finds exactly the others, none made up, and distinct names stay so |

## Left out

- The frontend, generated protobuf files, HTTP, WebSocket and gRPC transport, fsnotify, logging, and JSON text.
- Encryption and the project id hash; decryption is a parameter and stores are kept per project.
- File modes, time stamps beyond their order, special files, entries that cannot be read, and the Windows fallbacks.
- Temporary files that a crash leaves behind.
- Links among the ancestors of the workspace root, and reading or changing the workspace from outside during a restore.
- Manifests, such as a decoy may bring, whose recorded link path is the workspace root itself or leaves the workspace.
- Cancelling a restore between two links; a restore that fails earlier is modelled.
- SnapshotManager.InvAlways: says that no trigger is lost while a runner lives, not that a fair scheduler runs it.
- Case folding and blanks of shell commands are those of ASCII.
- TurnEngine.Engine.CheckLoopTermination: the alternating-loop branch cannot be reached with a window of three and is
  not modelled.
- TurnEngine.Engine.Run: a cancellation of the turn's own task arrives at a model call, where it ends the turn, or in
  the tool runtime, where it becomes a cancelled result; no other await of the turn suspends.
- Session.Client.FinishChat: a history line cut off by a crash is not modelled; sub-agent run files and references
  neither.
- ReverseRequests.HeardIsFinal: one goroutine waits for each request, once, and its deadline may pass at any moment.
- AgentRecursion.Chat: counts the calls of a batch one after the other; tools other than agents make no model call.
- ToolRuntime.RunBatch: whether a cancelled tool stops at once or runs on to its end is the schedule's choice.
- Listing threads page by page, ending a turn by its id, the trash tool and the tracking of the finish reason: their
  expected claims do not hold or say little.
- The per-thread pointer to a pending request, connections and event fan-out; only the request table is modelled.
- Activating a config, and the validation of URLs and directories in settings: easy members.
- ModelConfigs.ConfigHandler.Create: takes the config as already validated and encrypted.
