# Verification of the agent's core protocols

This project models the stateful core of `that-agent` and of its git server in
Dafny and proves what that core is for. Each module follows one part of the
program. Code that updates variables or fields is written as methods and
classes with the program's loops, and each is proved to compute a function;
the theorems are about those functions and about whole runs of them.

| module | models |
|---|---|
| `Tasks`, `TaskNormal`, `TaskWindows`, `TaskPruning`, `TaskStore` | the event-sourced task registry: events, replay, bounded windows, pruning, the files, the in-place methods |
| `TaskLock` | the lock-file protocol around a recording, any number of writers (which may crash) and lock-free readers |
| `Conversation`, `AgentLoop`, `AgentLoopProofs`, `AgentLoopAnswers`, `AgentLoopResume`, `AgentLoopRun` | the message grammar and the turn loop: tool partition, hooks, edit guards, the answer to every call, reminders, resuming |
| `AnthropicWire` | the translation of the history to the Anthropic message format |
| `OpenAiSession` | the persistent provider session with its cached response id |
| `ProviderCalls` | what whole runs of the loop send to either provider |
| `LineBuffer`, `SseStream`, `SsePayloads` | the chat-completions stream: line buffer, tool slots, flushes, the fold into a turn, and all of it in terms of the payloads |
| `Cron`, `Heartbeat`, `HeartbeatText`, `HeartbeatRoundTrip`, `HeartbeatParsed`, `HeartbeatRereads`, `Schedules`, `SchedulerRuns` | cron expressions, heartbeat entries and their file, its round trip once and many times, the poll tick, and runs of polls over the file |
| `Civil` | the calendar conversion behind the timestamps |
| `PktLine` | pkt-line framing and the ref-command parser |
| `Prelude`, `Text` | options and results, sequence and string functions of the standard library |

`dafny verify dfyconfig.toml` checks everything. Lemmas carry
`{:induction false}`: every induction is written out.

## What was found

Most properties hold as the code promises them. Where one does not, the exact
condition is proved instead.

- **Pruning order.** A recording prunes before it applies its event, a reload
  prunes after replaying everything. With more than 100 finished tasks the two
  differ exactly on the events of `TaskPruning.Disturbs`: reopening a finished
  task, an unreadable state name for a task that pruning has dropped, and
  re-creating the id of a kept finished task as an open one.
- **Empty journal beside a snapshot.** Seeding looks at whether the journal file
  exists, loading at whether it has lines. With an empty journal file a load
  shows the snapshot, and the next recording silently drops its tasks, unless
  there are none besides one that the event creates anew
  (`TaskPruning.EmptyJournalExactly`, with `EmptyJournalForgets` as an instance).
  The other results admit such a file: `SnapshotAgrees` and
  `TaskLock.SnapshotIsTheReplay` carry the condition.
- **Turn budget on resuming.** The turns already used are counted back to the
  last user message, and the loop itself injects user messages, so a resumed run
  may count fewer turns than were used, and never more. The count is right
  exactly when no user message was appended after a turn that counts
  (`AgentLoopResume.ResumedCountExactly`); from every history some run is
  interrupted with too small a count (`AgentLoopResume.SomeRunUndercounts`).
- **Edits across a retry.** Within one call of the loop a plain answer comes only
  after every edited path was read again. A network retry resumes with empty file
  tables, so over both calls this holds exactly for the paths the first call owed no
  read of, and those the second happens to read (`AgentLoopResume.ResumedAnswerExactly`);
  from every history an edit can stay unread (`AgentLoopResume.SomeEditStaysUnread`).
- **Provider session.** The cached response id is sound exactly while histories
  only grow. The agent loop's histories do (`ProviderCalls.RunsSendWholeHistories`).
- **Heartbeat bodies.** A body line that starts with `# ` is taken for the file's
  own heading, one that starts with `---` ends the section, and a carriage return
  at the end of a line is dropped. The round trip holds exactly without such
  lines (`HeartbeatRoundTrip.FileRoundTrip`). Every parsed entry has the shape
  this is stated for (`HeartbeatParsed.ParsedIsCarried`), and some are lost: trimming
  a body brings an indented first line to the front
  (`HeartbeatParsed.IndentedLineIsLost`), and of two carriage returns the first
  reading leaves one (`HeartbeatParsed.DoubledReturnIsLost`). A poll that
  saves keeps its entries exactly if the bodies are clean (`SchedulerRuns.PollSavesExactly`).
- **Runs over files with other bodies.** When an entry is due does not depend on its
  body, so spacing, at-most-once and the served minutes hold of an entry whatever
  its own body, as long as no body before it comes to split its section. Rereading
  strips lines and indentation from the front of a body, and
  `HeartbeatRereads.LastsExactly` says exactly which bodies never split. Where one
  does, a save creates an entry that was never one and moves the later ones to other
  places (`SchedulerRuns.SplitMovesEntries`).
- **Urgent entries.** The fast path for urgent entries changes nothing for a known
  schedule, since any entry that never ran is due anyway; it lets an urgent entry
  with an unknown schedule run once (`Schedules.DueExactly`).
- **pkt-lines.** The encoder does not bound its input: above 65531 bytes of
  payload the length needs five digits and is not read back
  (`PktLine.FramingExact`).

## Assumptions

- Provider replies, tool results, hook actions, steering hints, network failures
  and JSON decoding are arbitrary inputs. A journal line that is not a task, and
  a snapshot file that is not a task list, are the value `None`; no difference is
  made between a snapshot that is not JSON and one of the wrong shape.
- One journal append and one file replacement are atomic. A lock file never
  outlives the stale-lock age.
- Instants, counters and usage are unbounded integers. The wall clock is a
  monotone function of the instant, in one fixed zone, and past 1970.
- RFC 3339 texts of instants and UTF-8 are codecs that read back what they
  wrote. Lower-casing is that of ASCII.
- `SchedulerRuns` lets nobody but the scheduler write the heartbeat file, and
  every save succeeds. The program ignores errors of that save; after a failed
  one the file still has the old stamps and the next poll dispatches again.

## Model

| member | source | states |
|---|---|---|
| `TaskNormal.NormalizeFixpoint` | crates/that-agent/src/agents/mod.rs:504-521 | normalizing yields the normal form (non-blank owner, trimmed owner and agent among the participants) and changes nothing that already has it, so it is idempotent |
| `TaskNormal.OwnerDefaults` | crates/that-agent/src/agents/mod.rs:504-511 | a blank owner becomes the author of the first message, and `parent` when there is none or that is blank too |
| `TaskNormal.UpdateKeepsNormal` | crates/that-agent/src/agents/mod.rs:405-501 | every by-id event keeps the normal form and the id, and only ever appends participants |
| `TaskNormal.ApplyKeepsNormal` | crates/that-agent/src/agents/mod.rs:389-502 | every event keeps all tasks in normal form and all ids unique, so normalizing after a replay changes nothing |
| `TaskNormal.ApiJournalReplays` | crates/that-agent/src/agents/mod.rs:184-303 | a journal written through the public methods always replays without error, to normal tasks, and to unique ids if it starts from unique ids |
| `TaskWindows.WindowsFollowHistory` | crates/that-agent/src/agents/mod.rs:405-501 | over any events the messages, the notes and the header of a task are exactly the cut windows of its unbounded histories, and the revision counts the note events; its result is the text of the last update to completed, failed or canceled that carried one, its state the last one named, its last change the time of the last event naming it; owner and creation time stay |
| `TaskWindows.CreatedTaskWindows` | crates/that-agent/src/agents/mod.rs:184-208 | for a task created in the journal, under a new id or one already in use: last 30 messages ever accepted, last 50 notes, last 12 of the untruncated move-to-back header list with distinct kinds, revision = number of note events; result, state and last change as above, starting from none, submitted and the creation; a blank owner is `parent` |
| `TaskWindows.ActorsAreParticipants` | crates/that-agent/src/agents/mod.rs:405-532 | after any journal that spares a task, its participants are those it had, in their places, and everyone who acted on it in the journal, and nobody else |
| `TaskWindows.CutCommutes` | crates/that-agent/src/agents/mod.rs:453-488 | cutting the header to its last entries commutes with moving a kind to the back, as long as kinds stay distinct |
| `TaskPruning.PruningCommutes` | crates/that-agent/src/agents/mod.rs:314-402 | pruning before and after an event equals pruning only after it, if and only if the event does not disturb (reopen a terminal task above the cap, and two relatives named in `Disturbs`) |
| `TaskPruning.PruneIdempotent` | crates/that-agent/src/agents/mod.rs:314-341 | pruning a pruned list changes nothing |
| `TaskPruning.PruneMeans` | crates/that-agent/src/agents/mod.rs:314-341 | pruning keeps, in order, every open task and every ended one that has fewer than 100 ended ones after it |
| `TaskPruning.ReplaceExact` | crates/that-agent/src/agents/mod.rs:314-402 | replacing one task commutes with pruning exactly when it does not reopen a terminal task above the cap |
| `TaskPruning.CreateExact` | crates/that-agent/src/agents/mod.rs:314-404 | creating a task commutes with pruning exactly when it does not trade a kept terminal task above the cap for an open one |
| `TaskPruning.SnapshotAgrees` | crates/that-agent/src/agents/mod.rs:343-383 | after a recording the snapshot file equals what a load rebuilds from the extended journal, if and only if the event neither disturbs nor, beside an existing empty journal, forgets |
| `TaskPruning.CrashAtomic` | crates/that-agent/src/agents/mod.rs:343-383 | a crash between seeding, appending and saving leaves a load returning the old tasks (pruned) or the new ones, whatever the journal file; the exact case where seeding alone is visible |
| `TaskPruning.ReopeningAboveTheCap` | crates/that-agent/src/agents/mod.rs:314-402 | the condition is needed: after a journal of public-method events that creates and completes more tasks than the cap, reopening any of them makes saved and reloaded lists differ |
| `TaskPruning.EmptyJournalExactly` | crates/that-agent/src/channels/mod.rs:159-190 | beside an existing but empty journal file, snapshot and journal agree after a recording if and only if the snapshot holds no task but one the event creates anew; for every snapshot and event |
| `TaskPruning.EmptyJournalForgets` | crates/that-agent/src/channels/mod.rs:159-190 | a concrete such loss: the load shows the snapshot's task, and creating another makes it disappear |
| `TaskPruning.FailedRecordingIsSilent` | crates/that-agent/src/agents/mod.rs:343-353 | a recording whose event cannot be applied appends nothing and leaves the snapshot |
| `TaskStore.TaskCell.AddParticipantName` | crates/that-agent/src/agents/mod.rs:523-532 | in-place participant insertion: trimmed, non-blank, no duplicate |
| `TaskStore.TaskCell.CapMessages` | crates/that-agent/src/agents/mod.rs:305-311 | in-place cut to the last 30 messages |
| `TaskStore.TaskCell.NormalizeTask` | crates/that-agent/src/agents/mod.rs:504-521 | the in-place normalization computes `Normalize` |
| `TaskStore.TaskCell.PushNote` | crates/that-agent/src/agents/mod.rs:465-485 | header: retain other kinds, push, keep 12; scratchpad: push, keep 50 |
| `TaskStore.TaskCell.ApplyTo` | crates/that-agent/src/agents/mod.rs:405-501 | the in-place update of one task computes `Updated`, which `WindowsFollowHistory` ties to the history, with the error return on an unknown state name |
| `TaskStore.DropOldestKeepsNewest` | crates/that-agent/src/agents/mod.rs:314-341 | dropping the first surplus terminal tasks is keeping the newest 100 |
| `TaskStore.TaskList.PruneTerminal` | crates/that-agent/src/agents/mod.rs:314-341 | the counting retain loop computes `Prune` |
| `TaskStore.TaskList.ApplyEvent` | crates/that-agent/src/agents/mod.rs:389-502 | the whole event application on the list in place computes `Apply`, error returns included |
| `TaskStore.Registry.SeedJournal` | crates/that-agent/src/channels/mod.rs:178-190 | seeds an absent journal with the snapshot's content |
| `TaskStore.Registry.AppendEvent` | crates/that-agent/src/channels/mod.rs:140-157 | appends one line to the journal |
| `TaskStore.Registry.LoadUnlocked` | crates/that-agent/src/agents/mod.rs:359-383 | replay loop over a non-empty journal, then normalize and prune; otherwise the snapshot, normalized |
| `TaskStore.Registry.RecordEvent` | crates/that-agent/src/agents/mod.rs:343-353 | one recording changes the files exactly as `Recorded` says and fails exactly when preparing fails |
| `TaskStore.Registry.SetHeader` | crates/that-agent/src/agents/mod.rs:273-295 | pinning a header note that is already pinned records nothing, otherwise it records the event |
| `TaskStore.RecordedHeaderIsPinned` | crates/that-agent/src/agents/mod.rs:273-295 | once recorded, a header note is found pinned, so writing it again is silent |
| `TaskLock.StepKeeps` | crates/that-agent/src/channels/mod.rs:80-134 | every step of the lock protocol, by any writer or reader, keeps every invariant |
| `TaskLock.RunKeeps` | crates/that-agent/src/channels/mod.rs:80-134 | every interleaving from a start with any journal and snapshot files, an existing empty journal included, satisfies the invariants |
| `TaskLock.MutualExclusion` | crates/that-agent/src/channels/mod.rs:80-134 | in every reachable state at most one writer is inside, the one the lock file names |
| `TaskLock.JournalIsTheCommits` | crates/that-agent/src/agents/mod.rs:343-353 | the journal is the initial or seeded lines, then one line per committed call: each repeats its call's event, those of one writer stand in the order of its calls, none occurs twice, and a finished call has one exactly when it committed |
| `TaskLock.SnapshotIsTheReplay` | crates/that-agent/src/agents/mod.rs:343-387 | whenever the lock is free after a recording, the snapshot file is the pruned replay of the journal, if and only if the last event was calm: it did not disturb, nor forget as the first line of a journal that existed empty |
| `TaskLock.ReadersSeePrefixes` | crates/that-agent/src/agents/mod.rs:355-383 | every lock-free load that reads the journal returns the state of a journal prefix; one that finds no journal and reads the snapshot returns the state of the prefix last saved if and only if that prefix ends calmly; a reader's prefixes never shrink |
| `TaskLock.SoloCallRecords` | crates/that-agent/src/agents/mod.rs:343-353 | the protocol's steps run without interference are exactly one `Recorded` |
| `Conversation.StartsWithAnswersMeans` | crates/that-agent/src/agent_loop/mod.rs:639-692 | the recursive pairing predicate says: exactly these ids, in order, as tool messages |
| `Conversation.PairedTurn` | crates/that-agent/src/agent_loop/mod.rs:639-692 | an assistant message followed by its answers keeps the grammar |
| `AgentLoopProofs.EveryCallRunsOnce` | crates/that-agent/src/agent_loop/mod.rs:449-511 | the parallel and the sequential phase together run every call index exactly once |
| `AgentLoopProofs.NoSlotEmpty` | crates/that-agent/src/agent_loop/mod.rs:449-692 | after the tools no result slot is empty, so the fallback for a tool that did not run is unreachable |
| `AgentLoopAnswers.CallsAreAnswered` | crates/that-agent/src/agent_loop/mod.rs:404-692 | after a reply with calls the history goes on with that reply and one message per call, in order: under the call's id and name, the sanitized answer to that very call, which is its tool output, its hook's reply, the refusal of an edit whose path was not read (or edited last, by the named call), or the notice of a finished run |
| `AgentLoopAnswers.TurnDoes` | crates/that-agent/src/agent_loop/mod.rs:449-636 | the tools a turn executes, in order and with their success: the safe ones together if there are several, then one by one those that no hook, no earlier finish and no edit guard stops |
| `AgentLoopAnswers.FinalExactly` | crates/that-agent/src/agent_loop/mod.rs:511-697 | a turn with calls ends the run if and only if a hook of a call run one by one finishes it, and with the output of the first such hook |
| `AgentLoopAnswers.PlainExactly` | crates/that-agent/src/agent_loop/mod.rs:404-447 | a reply without calls is the answer if and only if no path was edited last; otherwise the turn goes on with the reply and a reminder naming exactly the paths edited last |
| `AgentLoopAnswers.TurnReminds` | crates/that-agent/src/agent_loop/mod.rs:275-813 | which reminders a turn with calls adds and where: hints and turn count before the request, prompt size and streak after the answers, none after a finish |
| `AgentLoopAnswers.ExploringIsNoticed` | crates/that-agent/src/agent_loop/mod.rs:735-813 | a turn that only explores adds one to the streak and one for each call made before, any other turn halves it; from 8 on a reminder, from 12 on the order to stop |
| `AgentLoopAnswers.UsageAddsUp` | crates/that-agent/src/agent_loop/mod.rs:385-385 | a turn adds the four usage counts of its reply, each to its own |
| `AgentLoopAnswers.SafeNames` | crates/that-agent/src/agent_loop/mod.rs:1376-1389 | the nine tools that may run together |
| `AgentLoopProofs.TurnKeepsPaired` | crates/that-agent/src/agent_loop/mod.rs:275-813 | however a turn ends, its history extends the one the model was asked with and every call is answered |
| `AgentLoopProofs.RunKeepsPaired` | crates/that-agent/src/agent_loop/mod.rs:220-816 | a run, finished or interrupted, leaves an extension of its history in the grammar |
| `AgentLoopProofs.EditsFollowReads` | crates/that-agent/src/agent_loop/mod.rs:573-628 | in every run a successful edit has a successful read of its path before it with no successful edit of that path between |
| `AgentLoopProofs.PlainAnswersAreVerified` | crates/that-agent/src/agent_loop/mod.rs:416-442 | a run that ends with plain text has read every edited path after its last successful edit |
| `AgentLoopProofs.TurnCost` | crates/that-agent/src/agent_loop/mod.rs:275-813 | a turn asks the model once, and one that goes on adds at most one to the consumed count |
| `AgentLoopProofs.RequestsBounded` | crates/that-agent/src/agent_loop/mod.rs:275-816 | a run makes one model call per turn up to the one it stops in; it stops with the turn limit, which it names, exactly after `max_turns` calls less the turns already consumed |
| `AgentLoopProofs.ConsumedNeverOvercounts` | crates/that-agent/src/agent_loop/mod.rs:260-269 | a resumed run never counts more turns as consumed than were gone through |
| `AgentLoopResume.ResumedCountExactly` | crates/that-agent/src/agent_loop/mod.rs:260-269 | the history an interrupted run leaves counts the turns gone through if and only if the run appended no user message after a turn that counts; otherwise it counts fewer |
| `AgentLoopResume.HintThenError` | crates/that-agent/src/agent_loop/mod.rs:275-330 | a tool turn, a queued steering hint and a provider error: the interrupted history counts no turn |
| `AgentLoopResume.SomeRunUndercounts` | crates/that-agent/src/agent_loop/mod.rs:260-269 | from every history some run is interrupted with a count strictly below the turns gone through |
| `AgentLoopResume.ResumedAnswerExactly` | crates/that-agent/src/orchestration/execution.rs:242-275 | over an interrupted call and one that resumes from its history and answers plainly, an edited path is read after its last edit if and only if the first call owed no read of it or the second reads it |
| `AgentLoopResume.OwedReadsAreForgotten` | crates/that-agent/src/orchestration/execution.rs:242-275 | whenever a call breaks while it owes a read, some call that resumes it answers plainly without that read |
| `AgentLoopResume.SomeEditStaysUnread` | crates/that-agent/src/orchestration/execution.rs:242-275 | from every history such a pair of calls exists, so an edit may stay unverified across a retry |
| `AgentLoop.ParallelSafeTouchesNoFiles` | crates/that-agent/src/agent_loop/mod.rs:1376-1389 | no parallel-safe tool is the edit tool or a read tool |
| `AgentLoopRun.CountConsumed` | crates/that-agent/src/agent_loop/mod.rs:260-269 | the loop counts the assistant messages after the last user message |
| `AgentLoopRun.Partition` | crates/that-agent/src/agent_loop/mod.rs:455-467 | the two index lists are the parallel-safe and the other calls, in order |
| `AgentLoopRun.RunConcurrently` | crates/that-agent/src/agent_loop/mod.rs:469-503 | the concurrent phase fills exactly its slots |
| `AgentLoopRun.RunOne` | crates/that-agent/src/agent_loop/mod.rs:511-636 | one sequential call: hook outcome, edit guards, dispatch, table updates |
| `AgentLoopRun.ExecuteTools` | crates/that-agent/src/agent_loop/mod.rs:449-636 | both phases over the slot array compute `ExecTurn` |
| `AgentLoopRun.PushResults` | crates/that-agent/src/agent_loop/mod.rs:639-692 | results are pushed in call order; `CallsAreAnswered` says what they are |
| `AgentLoopRun.CountExploration` | crates/that-agent/src/agent_loop/mod.rs:735-758 | the exploration streak and the seen-call set after a turn |
| `AgentLoopRun.OneTurn` | crates/that-agent/src/agent_loop/mod.rs:275-813 | one iteration of the turn loop computes `RunTurn` |
| `AgentLoopRun.RunTurns` | crates/that-agent/src/agent_loop/mod.rs:275-816 | the turn loop computes `RunFrom` |
| `AgentLoopRun.RunFromCheckpoint` | crates/that-agent/src/agent_loop/mod.rs:220-816 | resuming starts at the consumed turn count |
| `AnthropicWire.MessagesToAnthropic` | crates/that-agent/src/agent_loop/anthropic.rs:535-687 | grouping, merging and tagging loops compute `Wire` |
| `AnthropicWire.Group` | crates/that-agent/src/agent_loop/anthropic.rs:536-626 | one wire message per user or assistant message and per run of tool messages |
| `AnthropicWire.Merge` | crates/that-agent/src/agent_loop/anthropic.rs:628-659 | in-place merging of neighbours with one role |
| `AnthropicWire.TagBreakpoint` | crates/that-agent/src/agent_loop/anthropic.rs:661-684 | tags the last block of the last user message when there are at least two messages |
| `AnthropicWire.WireAlternates` | crates/that-agent/src/agent_loop/anthropic.rs:628-659 | no two neighbours have the same role, for every message list |
| `AnthropicWire.WireLosesNothing` | crates/that-agent/src/agent_loop/anthropic.rs:535-659 | the flattened (role, block) sequence is that of the history, each message spelled out in its own fields (text, pictures, tool uses with id, name and arguments, results with id, content and pictures), nothing lost, added or reordered |
| `AnthropicWire.CachingTagsOneBlock` | crates/that-agent/src/agent_loop/anthropic.rs:661-684 | caching differs from the uncached output by one tag on the last block of the last user message, and only with at least two messages |
| `AnthropicWire.PairedWireIsAnswered` | crates/that-agent/src/agent_loop/anthropic.rs:535-687 | for a paired history, with and without prompt caching, each message using tools is followed by a user message leading with exactly those results, in order |
| `ProviderCalls.HistoriesGrowPaired` | crates/that-agent/src/agent_loop/mod.rs:275-813 | every model call of a run gets a paired history extending the one of the call before |
| `ProviderCalls.EveryRequestIsAnswered` | crates/that-agent/src/agent_loop/anthropic.rs:535-687 | in every request a run makes to Anthropic, with and without prompt caching, roles alternate and every tool use is answered at once and in order |
| `ProviderCalls.RunsSendWholeHistories` | crates/that-agent/src/agent_loop/openai.rs:98-185 | over a run's session every request completes its chain to the whole history, whatever the network does |
| `OpenAiSession.OpenAiWsState.StreamTurn` | crates/that-agent/src/agent_loop/openai.rs:98-185 | the retry loop over the session fields computes `Turn` |
| `OpenAiSession.OpenAiWsState.Exchanged` | crates/that-agent/src/agent_loop/openai.rs:115-183 | one request: start index, slice, and the session update for each outcome |
| `OpenAiSession.TwoAttempts` | crates/that-agent/src/agent_loop/openai.rs:108-185 | at most two requests per call: a first one exactly if connected or connecting works, a second one exactly after a refusal for an unknown previous response, or for too many connections if reconnecting works; the second without previous id and with the full history |
| `OpenAiSession.TurnReturns` | crates/that-agent/src/agent_loop/openai.rs:108-185 | what a call returns for every way its last request ended, and that the connection failed when there was none or the second attempt found none |
| `OpenAiSession.RememberedResponse` | crates/that-agent/src/agent_loop/openai.rs:142-183 | exactly which outcomes leave which response id remembered |
| `OpenAiSession.ConnectionKept` | crates/that-agent/src/agent_loop/openai.rs:142-183 | the connection survives a turn exactly when its last request completed or was refused for good |
| `OpenAiSession.AllWholeMeans` | crates/that-agent/src/agent_loop/openai.rs:119-132 | the recursive predicate says of each request in the log that it is whole |
| `OpenAiSession.ChainIsAnswered` | crates/that-agent/src/agent_loop/openai.rs:119-132 | while all requests were whole, the slices on the chain to a response concatenate to the history it answered |
| `OpenAiSession.RequestWhole` | crates/that-agent/src/agent_loop/openai.rs:119-132 | a request plus its chain is the whole history if and only if the history extends the answered one |
| `OpenAiSession.RunWholeExactly` | crates/that-agent/src/agent_loop/openai.rs:98-185 | over every run: all requests whole if and only if every continued response's history was extended |
| `OpenAiSession.AppendOnlyRunsAreWhole` | crates/that-agent/src/agent_loop/openai.rs:98-185 | with append-only histories no message is skipped or sent twice on a chain, and the chain to the remembered id is the prefix of the remembered length |
| `LineBuffer.DrainSplit` | crates/that-agent/src/agent_loop/openai_compatible.rs:64-68 | consuming a buffer in two pieces is consuming it at once |
| `LineBuffer.FeedIsDrain` | crates/that-agent/src/agent_loop/openai_compatible.rs:52-68 | feeding chunks is consuming their concatenation, early stop included |
| `LineBuffer.CrLfDrain` | crates/that-agent/src/agent_loop/openai_compatible.rs:66-68 | a carriage return before each newline changes nothing |
| `SseStream.ChunkingIsIrrelevant` | crates/that-agent/src/agent_loop/openai_compatible.rs:52-150 | text, usage, slots, events and result depend only on the concatenated text, with `[DONE]` and error exits |
| `SseStream.LineEndingsAreIrrelevant` | crates/that-agent/src/agent_loop/openrouter.rs:127-133 | LF and CRLF streams give the same turn |
| `SseStream.EncodedTurn` | crates/that-agent/src/agent_loop/openrouter.rs:127-149 | an encoded list of data items, however cut, is taken in as that list up to the item that ends the stream |
| `SseStream.LiveSlot` | crates/that-agent/src/agent_loop/openrouter.rs:187-239 | the slot of a live call is its start plus all continuations of its index, in order, and its first name |
| `SseStream.SlotIsLive` | crates/that-agent/src/agent_loop/openrouter.rs:187-239 | every slot belongs to a live call |
| `SseStream.CallsEmittedExactly` | crates/that-agent/src/agent_loop/openrouter.rs:187-276 | each flush emits exactly the named live calls, completely assembled from the acts the loop took in |
| `SseStream.LiveAtOneFlush` | crates/that-agent/src/agent_loop/openrouter.rs:187-276 | a call is emitted at no second flush |
| `SseStream.EveryCallIsEmittedOnce` | crates/that-agent/src/agent_loop/openrouter.rs:187-276 | in a turn that finished, every named call whose index is not opened again before the next flush is emitted at that flush, completely assembled, and at no other; one whose index is opened again is emitted nowhere |
| `SseStream.FoldedTurn` | crates/that-agent/src/agent_loop/mod.rs:1087-1131 | however many turn ends arrive, the folded text is the concatenated deltas, the calls the emitted batches, the usage the last one |
| `SsePayloads.TurnTakesAll` | crates/that-agent/src/agent_loop/openrouter.rs:127-276 | whatever the chunks, the loop takes in exactly what the payloads of the stream's data lines tell, up to the end marker, the first error or the close, and ends as they say |
| `SsePayloads.EncodedDatas` | crates/that-agent/src/agent_loop/openrouter.rs:127-149 | an encoded list of data items carries exactly those items |
| `SsePayloads.CallsOfPayloads` | crates/that-agent/src/agent_loop/openai_compatible.rs:91-150 | each end of a turn emits the calls open there that have a name: with the id of the delta that opened it, the first name given for its index, and the concatenation of all argument pieces of its index |
| `SsePayloads.OpenedCallsOnce` | crates/that-agent/src/agent_loop/openrouter.rs:187-276 | in a turn that finishes every delta with an id is emitted so at exactly one end if it has a name and its index is not opened again before, and nowhere otherwise |
| `SsePayloads.PayloadsFolded` | crates/that-agent/src/agent_loop/mod.rs:1087-1131 | however many ends arrive, the folded text is the concatenation of all contents and the calls are the emitted batches; in a stream that finishes, prompt tokens of the last report are the input, completion tokens the output, cached counts those last reported |
| `SseStream.TakeCall` | crates/that-agent/src/agent_loop/openrouter.rs:191-237 | one tool-call delta: start, continuation, late name |
| `SseStream.FlushPending` | crates/that-agent/src/agent_loop/openai_compatible.rs:275-298 | the flush emits the named slots, empties the map and ends the turn |
| `SseStream.TakeText` | crates/that-agent/src/agent_loop/openai_compatible.rs:69-145 | one data line: `[DONE]`, undecodable, error, usage, choice |
| `SseStream.StreamTurn` | crates/that-agent/src/agent_loop/openai_compatible.rs:44-150 | the nested loops over chunks and lines compute `Turn` |
| `Cron.MarkPart` | crates/that-agent/src/heartbeat/mod.rs:698-708 | the stepping loop terminates and sets exactly the flags the part selects |
| `Cron.MarkField` | crates/that-agent/src/heartbeat/mod.rs:655-716 | the field loop over any reading of its parts, with its error returns |
| `Cron.ParseCronField` | crates/that-agent/src/heartbeat/mod.rs:655-716 | the field parser computes `ParseField` |
| `Cron.FieldParses` | crates/that-agent/src/heartbeat/mod.rs:655-716 | a field parses exactly when all its parts do; otherwise the first bad part's error, never the empty-set error |
| `Cron.FieldSelects` | crates/that-agent/src/heartbeat/mod.rs:655-716 | flag v is set exactly when some part has start <= v <= end with the step dividing v - start, and some flag in range is set |
| `Cron.PartMeant` | crates/that-agent/src/heartbeat/mod.rs:662-696 | every written part (star, value, range, with or without step, each value any text, with white space around) parses to what it stands for, or to its exact error |
| `Cron.EveryWordIsWritten` | crates/that-agent/src/heartbeat/mod.rs:662-696 | every text without white space and commas is the text of some written part, so the two results below leave no field out |
| `Cron.NumeralMeans` | crates/that-agent/src/heartbeat/mod.rs:718-720 | a decimal numeral stands for its number in every field, up to 32 bits |
| `Cron.NameMeans` | crates/that-agent/src/heartbeat/mod.rs:722-751 | month and weekday names stand for their numbers, in any letter case |
| `Cron.FieldMeant` | crates/that-agent/src/heartbeat/mod.rs:655-716 | every written field parses to the union of its parts |
| `Cron.CronMatchesMeans` | crates/that-agent/src/heartbeat/mod.rs:633-653 | the day rule of POSIX crontab, 7 being Sunday; all indices in bounds |
| `Cron.ExpressionMeant` | crates/that-agent/src/heartbeat/mod.rs:612-631 | five written fields, with any white space between and around them, parse in their order, ranges and names to what each selects, or to the error of the first bad field; a day field is 'any' exactly when it is the lone star |
| `Schedules.DueExactly` | crates/that-agent/src/heartbeat/mod.rs:488-559 | when an entry is due, in literal nanoseconds and selected minutes: approved if it is minutely or has a cron text that parses and selects more than two of the sixty minutes; past its gate; and elapsed since the last run, or never run and of a known schedule (or urgent) |
| `Schedules.SubhourlyMeans` | crates/that-agent/src/heartbeat/mod.rs:547-559 | a cron text needs approval if and only if it parses and selects more than two minutes of the hour |
| `Schedules.DispatchedExactly` | crates/that-agent/src/orchestration/channel_mode.rs:1066-1112 | a poll dispatches the due entries that are pending, running or processing, under load only urgent and high ones |
| `Schedules.MatchesMeans` | crates/that-agent/src/heartbeat/mod.rs:592-653 | a cron text matches a wall minute exactly when it parses, its minute, hour and month flags are set there, and the day rule of crontab holds |
| `Schedules.WhenStarts` | crates/that-agent/src/heartbeat/mod.rs:572-580 | wall minute 0 is midnight of Thursday, the first of January |
| `Schedules.WhenAdvances` | crates/that-agent/src/heartbeat/mod.rs:633-638 | a day later the clock reads the same, on the next weekday and the calendar's next date |
| `Schedules.RankOrder` | crates/that-agent/src/orchestration/channel_mode.rs:1090-1096 | urgent before high before normal before low before unknown |
| `Schedules.CollectDue` | crates/that-agent/src/orchestration/channel_mode.rs:1075-1096 | the due entries, each once, urgent first and stable |
| `Schedules.RetainPressing` | crates/that-agent/src/orchestration/channel_mode.rs:1101-1112 | while a task run is active only urgent and high entries stay |
| `Schedules.StampAll` | crates/that-agent/src/orchestration/channel_mode.rs:1199-1206 | stamps exactly the dispatched entries in place |
| `Schedules.Tick` | crates/that-agent/src/orchestration/channel_mode.rs:1066-1214 | one poll: new entries and dispatch list, completely |
| `SchedulerRuns.PollSavesExactly` | crates/that-agent/src/orchestration/channel_mode.rs:1066-1214 | a poll that dispatches leaves the file with the entries it computed if and only if the bodies it loaded are clean |
| `SchedulerRuns.FileTracksEntries` | crates/that-agent/src/orchestration/channel_mode.rs:1066-1214 | through every run of a file with clean bodies, reloading the file gives exactly the entries the ticks computed |
| `SchedulerRuns.FileTracksUpTo` | crates/that-agent/src/orchestration/channel_mode.rs:1066-1214 | through every run an entry keeps its place and everything but its body, last run and status as computed, if no body before it can come to split its section |
| `SchedulerRuns.RunsAreSpaced` | crates/that-agent/src/heartbeat/mod.rs:488-545 | in every run over a file, any two runs of an entry whose predecessors' bodies cannot split are spaced as its schedule says: hourly and weekly more than a period, minutely at least one, daily increasing wall dates, cron increasing wall minutes, once and unknown never again |
| `SchedulerRuns.OnceAtMostOnce` | crates/that-agent/src/heartbeat/mod.rs:515-515 | a once entry whose predecessors' bodies cannot split is dispatched at most once over a whole run |
| `SchedulerRuns.FileEntryEvolves` | crates/that-agent/src/orchestration/channel_mode.rs:1199-1206 | over a whole run of saves and reloads such an entry changes in nothing but its last run, its status and its body; in a file of clean bodies the body stays too |
| `SchedulerRuns.NotBeforeHolds` | crates/that-agent/src/heartbeat/mod.rs:493-498 | no run of such an entry after the start is stamped before its `not_before` |
| `SchedulerRuns.UnapprovedNeverRuns` | crates/that-agent/src/heartbeat/mod.rs:488-491 | an unapproved entry whose schedule is minutely or selects more than two minutes of the hour has no run over the whole run of polls |
| `SchedulerRuns.CronFiresOnMatch` | crates/that-agent/src/heartbeat/mod.rs:592-653 | every run of such a cron entry but its very first comes from a poll that looked in a wall minute its expression selects, spelled out in flags and day rule |
| `SchedulerRuns.CronServesMinuteOnce` | crates/that-agent/src/heartbeat/mod.rs:592-653 | a minute the expression of such an entry selects, with a poll that looks and stamps in it, gets exactly one run over the whole run |
| `SchedulerRuns.SplitMovesEntries` | crates/that-agent/src/orchestration/channel_mode.rs:1066-1214 | a file whose first body splits at the first save: a new entry appears, the second entry becomes the third, and a once entry's place is dispatched twice |
| `Heartbeat.PriorityRoundTrip` | crates/that-agent/src/heartbeat/mod.rs:26-48 | priorities read back from their text |
| `Heartbeat.StatusRoundTrip` | crates/that-agent/src/heartbeat/mod.rs:114-142 | statuses read back from their text |
| `Heartbeat.ScheduleRoundTrip` | crates/that-agent/src/heartbeat/mod.rs:61-101 | schedules read back from their text, cron texts included |
| `Heartbeat.NamesMean` | crates/that-agent/src/heartbeat/mod.rs:26-48 | which priority and status each text names, in any letter case and with white space around it |
| `Heartbeat.SchedulesMean` | crates/that-agent/src/heartbeat/mod.rs:61-88 | which texts name the five fixed schedules |
| `HeartbeatText.ParseHeartbeat` | crates/that-agent/src/heartbeat/mod.rs:183-295 | the section loop computes `Parse` |
| `HeartbeatText.ReadSection` | crates/that-agent/src/heartbeat/mod.rs:203-250 | the line loop with its flags and field map |
| `HeartbeatText.SerializeHeartbeat` | crates/that-agent/src/heartbeat/mod.rs:297-323 | the printing loop computes `Serialize` |
| `HeartbeatRoundTrip.SectionSplits` | crates/that-agent/src/heartbeat/mod.rs:187-187 | a printed section without separator lines is split off at its separator and nowhere inside |
| `HeartbeatRoundTrip.SectionReads` | crates/that-agent/src/heartbeat/mod.rs:190-291 | the section of a printed entry parses to that entry, its body less the lines that look like the file's heading and one carriage return per line |
| `HeartbeatRoundTrip.RereadExactly` | crates/that-agent/src/heartbeat/mod.rs:202-206 | a body without separator lines is read back if and only if no line looks like the file's heading or ends in a carriage return |
| `HeartbeatRoundTrip.CutIsLost` | crates/that-agent/src/heartbeat/mod.rs:187-187 | a body with a separator line is read back shorter, whatever follows it in the file |
| `HeartbeatRoundTrip.FileRoundTrip` | crates/that-agent/src/heartbeat/mod.rs:183-323 | parsing a printed file gives back the same entries, for every list in the shape the parser returns, if and only if no body line starts with `# ` or `---` or ends in a carriage return; and what it gives otherwise if there is no separator line |
| `HeartbeatParsed.ParsedIsCarried` | crates/that-agent/src/heartbeat/mod.rs:183-294 | whatever the file holds, every parsed entry has that shape |
| `HeartbeatParsed.MetadataMeans` | crates/that-agent/src/heartbeat/mod.rs:203-295 | a title and metadata lines, in any order and with unknown or repeated keys, are read as the entry of the last value of each key: its defaults, its yes-words, its two instants |
| `HeartbeatParsed.BodyStarts` | crates/that-agent/src/heartbeat/mod.rs:226-250 | the first line after the metadata that is neither blank nor a `# ` heading nor has a simple key before a colon starts the body, which holds it and all later lines but `# ` headings |
| `HeartbeatParsed.PrintedLines` | crates/that-agent/src/heartbeat/mod.rs:297-323 | the lines a printed entry consists of, in order |
| `HeartbeatParsed.IndentedLineIsLost` | crates/that-agent/src/heartbeat/mod.rs:202-279 | a file whose entry has an indented `# ` or `---` line as its body: the entry parsed from it is not read back after saving |
| `HeartbeatParsed.DoubledReturnIsLost` | crates/that-agent/src/heartbeat/mod.rs:202-279 | a file with two carriage returns before a newline in a body: the entry parsed from it is not read back after saving |
| `HeartbeatRereads.LastsExactly` | crates/that-agent/src/heartbeat/mod.rs:183-323 | a body never comes to split its section, however often it is saved and reloaded, if and only if it has no separator line and its first line that is neither blank nor, unindented, like the file's heading is no separator, unindented |
| `HeartbeatRereads.PlainBodiesLast` | crates/that-agent/src/heartbeat/mod.rs:183-323 | clean bodies last, and so do bodies none of whose lines, unindented, is a separator |
| `HeartbeatRereads.SavedUpTo` | crates/that-agent/src/heartbeat/mod.rs:183-323 | in a saved and reloaded file every entry up to the first body with a separator line stands at its place, with everything but its body |
| `Civil.DaysToYmdCounts` | crates/that-agent/src/channels/registry.rs:74-87 | the result is a valid date and counting years, months and days back gives the day count |
| `Civil.DaysToYmdIsGregorian` | crates/that-agent/src/channels/registry.rs:74-87 | day 0 is 1970-01-01 and each day is the calendar successor of the day before |
| `Civil.Inverse` | crates/that-agent/src/channels/registry.rs:74-87 | converting inverts counting on every date from 1970 on |
| `Civil.EarlierMeansFewer` | crates/that-agent/src/channels/registry.rs:74-87 | day counts order dates as the calendar does |
| `Civil.StartsInYear` | crates/that-agent/src/channels/registry.rs:76-82 | no intermediate subtraction underflows; the year of the era is below 400 |
| `Civil.TimestampIsExact` | crates/that-agent/src/channels/registry.rs:59-72 | the time fields are in range and determine the second count |
| `PktLine.EncodePktLine` | crates/that-git-server/src/git.rs:157-163 | length prefix of at least four hexadecimal digits, then the data |
| `PktLine.FramingExact` | crates/that-git-server/src/git.rs:157-163 | a framed length is read back if and only if it fits four digits |
| `PktLine.ParseFrames` | crates/that-git-server/src/acl.rs:11-51 | on arbitrary bytes the loop terminates, slices in range and computes `Commands` |
| `PktLine.ParseRefCommands` | crates/that-git-server/src/acl.rs:11-51 | the parser with the source's reading of a payload |
| `PktLine.PayloadRoundTrip` | crates/that-git-server/src/acl.rs:28-45 | a payload yields its command, whatever the capabilities and the trailing white space |
| `PktLine.PushRoundTrip` | crates/that-git-server/src/acl.rs:11-51 | commands framed as pkt-lines, a flush and any pack bytes parse as exactly those commands |

## Left out

- Operating-system and network detail: HTTP, WebSocket frames, git, container and cluster commands, tracing and audit logs.
- Stale-lock takeover: checking a lock file's age and removing it are separate steps, so the protocol is modelled without it.
- I/O errors in the middle of a recording: a crash there is modelled, an error return is not.
- `TaskLock`: a waiting writer may give up whenever the lock file exists; the five-second limit is not modelled.
- The registry's list and lookup methods, id generation and timestamps: ids and times are parameters.
- `AgentLoop`: concurrent tools are recorded in index order; they finish in any order in the program, which changes neither slots nor tables.
- `AgentLoop`: when steering hints are queued and who reads them; the texts of reminders are a parameter.
- `AnthropicWire`: tool arguments stay text; the program sends the parsed JSON, or an empty object when it does not parse, and sends image bytes in base64.
- `OpenAiSession`: the fold of response events into text and tool calls, which keeps slots as `SseStream` does, and the request body besides its messages.
- `OpenAiSession`: the provider's own replies. The slice after a completed response starts with the assistant message that response produced, so the provider sees it as its own output and again as input.
- `SseStream`: the order in which one flush emits its calls is the hash map's; a flush emits them as one batch. A multi-byte character cut between chunks is decoded chunk by chunk in the program, while chunks here are decoded text.
- The Anthropic stream loop: its end marker leaves only the inner loop, so the chunking theorem is about the two chat-completions loops.
- `Schedules`: plugin tasks, queued notifications and inbound messages, and the dispatch itself. Each entry is judged by its own two clock readings.
- Time zones and daylight saving: not part of this model.
- `now_rfc3339`: its padding to text.
- Sender locks, run tracking, session transcripts, menus, redaction, push authorization, command-line definitions and skill installation.
