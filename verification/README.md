# A verified model of a coding agent's core

Dafny models of the algorithms and lock protocols of the agent, with proofs of what they promise: the diff and patch
engine with its transactional commit, the durable event log and the transient bus, the turn coordinator with its two-level
quota, compaction, the retrying response stream, queue delivery, identifiers, and the MCP framing and request table.
`dafny verify dfyconfig.toml` checks the whole project.

Loops over local state are methods with invariants, proved against specification functions. Protocols are step systems: one
step is one critical section, one channel operation or one transaction, a run is any sequence of enabled steps, and each
main result is about every run. The classes beside them are the source's objects; their methods are proved to be steps, or
runs of steps, of those systems, with readers acting in between where the source lets them.

| file | what it models |
|---|---|
| `EditScript.dfy`, `Hunks.dfy` | shortest edit scripts by the furthest-reaching search, and unified hunks |
| `FileLines.dfy`, `Patch.dfy`, `Apply.dfy` | files as lines, locating blocks, splicing replacements |
| `RoundTrip.dfy`, `ReadBack.dfy`, `Resplit.dfy`, `Marks.dfy` | from a diff back to the file, on texts, on data, and with a byte order mark |
| `LineEnds.dfy` | which line ends a patched file has |
| `PatchBlocks.dfy`, `BlockPatch.dfy` | the SEARCH/REPLACE format, and what its patches do to a file |
| `Commit.dfy` | the transactional commit over a file system that may fail |
| `EventLog.dfy`, `EventRepository.dfy` | the event log, replay and live handoff |
| `Transient.dfy`, `TransientOrder.dfy`, `TransientListener.dfy` | the bus that evicts tool output, and the order it keeps |
| `Semaphore.dfy`, `Quota.dfy`, `Turns.dfy`, `AgentSession.dfy`, `ChildTurns.dfy` | turns, their quota, and both together |
| `SafeCut.dfy`, `Epochs.dfy`, `CompactionStore.dfy` | where history is cut, and the chain of epochs |
| `RetryStream.dfy` | reconnecting before output |
| `Queue.dfy`, `QueueStore.dfy` | monitored delivery under delivery IDs |
| `Id.dfy`, `Framing.dfy`, `Rpc.dfy`, `Permission.dfy`, `HeadTail.dfy` | identifiers, frames, pending tables, output ends |

## Assumptions

- Characters stand for Unicode code points; data is valid text. Context headers and end-of-file anchors of hunks are unset.
- A new file state is compared by its SHA-256 in the source; the model compares contents, so the hash is taken to be free of
  collisions. Nothing else changes the file system during a commit, rollback calls do not fail for outside reasons, and the
  system picks fresh names for temporary files.
- One process appends to a session's event log. Generated IDs are fresh. Whether bytes are valid JSON is a parameter.
- Which call fails, when a context is canceled, and in which order a map is traversed are inputs or open choices.
- A response ends with one error that every later read repeats.

## Where the code does not do what it says

- A rollback restores a file with its permission bits only, so a set-user-ID, set-group-ID or sticky bit of a file that was
  changed and restored is lost (`internal/change/change.go:345-364`). `Commit.CommitPlan` states exactly when everything is
  as before.
- A push to the front drops the delivery ID of an item that the receiver accepted but that was not removed, for instance
  because the deliverer crashed; the item is then delivered again under a new ID (`internal/queue/queue.go:143-151`).
  `Queue.AppendedAtMostOnce` and `Queue.FrontPushDuplicates` give the exact condition, `Queue.FrontPushIsReached` a run.
- A diff that inserts lines after an unterminated last line that it keeps runs them together when applied
  (`internal/change/patch.go:415-433`), and a lone carriage return can run into the newline of an empty line that comes to
  follow it; `ReadBack.ReadsBackExactly` and `ReadBack.ReadsBackIfLinesKept` give the exact conditions.
- A diff shows a byte order mark as part of the first line, and the patcher takes the mark off before it searches, so a diff
  whose first hunk shows the first line does not apply to its own file; `Marks.MarkedRoundTrip` gives the exact condition.
- A clean end of a response before output hands on its bookkeeping only while a reconnection is left
  (`internal/provider/stream_retry.go:92-105`); `RetryStream.RetryStream.Next` states exactly when, and
  `RetryStream.CleanEndCanLoseBookkeeping` is a script that loses it.
- A reader of the transient bus that receives while the publisher drains can get events out of order
  (`internal/event/transient_repository.go:185-203`); `TransientOrder.OrderDependsOnOvertaken` and
  `TransientOrder.OrderIsKeptThroughout` say exactly when.
- Closing the request table signals that it is closed before it sends to the callers, although a comment says the reverse
  (`internal/mcp/rpc.go:117-125`, `internal/mcp/rpc.go:251-259`); a waiting caller
  can lose an answer that was taken for it exactly if its request is being written or the answer is not in its channel
  (`Rpc.AnswerCanBeLost`, `Rpc.WhatAnsweredCallsReturn`).
- Where tool-call groups cross, the cut can depend on the order in which a map is traversed
  (`internal/compaction/service.go:300-311`). It does exactly if there is a trap (`SafeCut.OrderMatters`,
  `SafeCut.SafeUnlessTrapped`): some cut reached by moving before one group after the other, and a group around that cut
  whose start lies in other groups, all of which end before the cut. They may have had their turn, and the cut then stays
  inside them. `SafeCut.CrossingDependsOnOrder` is a history on which two orders give different cuts.

## Model

| member | source | states |
|---|---|---|
| `EditScript.ShortestEditScript` | internal/change/diff.go:44-76 | For any two line lists the result is a script: it spells both files and numbers every edit; and no script changes fewer lines, unless every script changes more than 1024 lines. The search never reads outside its array |
| `EditScript.ScriptReaches` | internal/change/diff.go:44-76 | Every script of any shape is a walk on the edit graph with as many non-diagonal steps as it has changes |
| `EditScript.ReachIsBounded` | internal/change/diff.go:51-68 | No walk with the same deletions and insertions gets past the furthest point that the search computes |
| `EditScript.FurthestIsReached` | internal/change/diff.go:51-68 | The furthest point on a diagonal, where it lies inside the grid, is reached by a walk with exactly those deletions and insertions |
| `EditScript.StopsAtCorner` | internal/change/diff.go:64-67 | The first point at or past both ends is exactly the corner of the grid, and it is on the corner's diagonal |
| `EditScript.NotReachedMeansLonger` | internal/change/diff.go:50-72 | If the first d rounds do not reach the end, every script changes at least d lines |
| `EditScript.BacktrackEdits` | internal/change/diff.go:105-139 | Walking the trace back yields a walk from the start to the corner that changes as many lines as there were rounds, in forward order |
| `EditScript.WalkIsScript` | internal/change/diff.go:105-139 | Any such walk spells both files and carries the right line numbers |
| `EditScript.KeepBack` | internal/change/diff.go:117-121 | The diagonal part of one round back |
| `EditScript.FallbackEditScript` | internal/change/diff.go:78-103 | Without a search: a script that keeps the longest common ends and replaces everything between them |
| `EditScript.TrimCommonEnds` | internal/change/diff.go:78-86 | The longest common prefix, and the longest common suffix of what remains |
| `Hunks.WriteDiffHunks` | internal/change/diff.go:141-186 | The ranges are increasing and disjoint, cover every changed line, have at most three context lines at each end, merge changes no more than six lines apart, and the hunks are exactly those ranges |
| `Hunks.FormatHunk` | internal/change/diff.go:157-184 | The header counts and positions of one range, and its lines |
| `Hunks.HunksPatchOldToNew` | internal/change/diff.go:141-186 | Patching the old file purely by header positions and counts is never rejected and yields the new file |
| `Hunks.HeaderMeans` | internal/change/diff.go:157-184 | A header places its hunk where the script is in both files, empty sides included |
| `FileLines.SplitFileLines` | internal/change/patch.go:367-382 | One pass that splits at a newline, a carriage return, or both |
| `FileLines.SplitJoins` | internal/change/patch.go:367-382 | Splitting loses nothing: joining gives the same data, lines are free of breaks, and nothing fuses |
| `FileLines.JoinKeepsCount` | internal/change/patch.go:367-382 | Joining and splitting any well-formed list never yields more lines, and yields the same list exactly when it is canonical |
| `FileLines.DiffSeesFileTexts` | internal/change/diff.go:188-200 | The differ's split of a file, which normalises line ends first, has exactly the texts of the patcher's split |
| `Patch.SeekPatchSequence` | internal/change/patch.go:512-551 | The strictest of four comparisons that matches anywhere decides: by its only site, or as ambiguous with the number of its sites; nothing is found exactly when none matches |
| `Patch.SeekMeans` | internal/change/patch.go:512-551 | A comparison decides exactly if it has sites and no stricter one has: its only site is the result, or the number of its sites is |
| `Patch.TrailingSpaceMeans` | internal/change/patch.go:518-520 | The second comparison overlooks spaces, tabs and line breaks at the end of a line and nothing else |
| `Patch.SurroundingSpaceMeans` | internal/change/patch.go:521 | The third overlooks white space at both ends and nothing else |
| `Patch.LooserAndLooser` | internal/change/patch.go:516-525 | Each comparison accepts what the stricter ones accept |
| `Patch.ExactSiteDecides` | internal/change/patch.go:512-551 | A block that occurs verbatim is found there, or is ambiguous; no looser comparison is used |
| `Patch.SeekInBounds` | internal/change/patch.go:512-551 | A reported site exists, is the only one of its comparison, and lies inside the file at or after the start |
| `Patch.CountSites` | internal/change/patch.go:530-549 | One comparison's pass counts all sites and remembers one |
| `Patch.LineEndingAt` | internal/change/patch.go:392-407 | A terminated line's own terminator; else that of the nearest terminated line before it; else that of the nearest one after it; a newline only if no line is terminated |
| `Patch.ReplacementLines` | internal/change/patch.go:409-435 | Kept lines keep text and terminator, inserted lines get the current terminator, and an unterminated end stays unterminated |
| `Patch.ReplaceAt` | internal/change/patch.go:409-429 | Line by line: a kept line keeps all its bytes, and an inserted one ends as the first line deleted before it, if that is terminated, and else as the place of the hunk does |
| `Patch.ReplacingSpells` | internal/change/patch.go:409-435 | Where the old side matched verbatim, the replacing texts are the new side |
| `Patch.SpliceReversed` | internal/change/patch.go:487-496 | Splicing ranges in one after the other, last first, equals replacing all of them at once |
| `Patch.OutsideUnchanged` | internal/change/patch.go:437-504 | A line outside all ranges keeps text and terminator, at its old place moved by exactly what the replacements before it add or take away |
| `Patch.OutsideInOrder` | internal/change/patch.go:437-504 | Lines outside all ranges keep their order |
| `Apply.ApplyHunks` | internal/change/patch.go:437-504 | The whole application, the byte order mark included: all errors in order, or the spliced file |
| `Apply.PlanIsDisjoint` | internal/change/patch.go:443-486 | Whatever the hunks are, the located ranges, sorted stably by start, are disjoint and inside the file |
| `Apply.PatchOrder` | internal/change/patch.go:487-489 | Sorting by start is patch order, with the hunks that have no old lines moved behind all others |
| `LineEnds.SplicedKeepsEnds` | internal/change/patch.go:392-504 | Whatever the hunks, patching a file with a terminated line brings in no terminator that it did not have |
| `LineEnds.OneKindStays` | internal/change/patch.go:392-504 | A file whose terminated lines all end alike is patched to data whose lines end like that too |
| `Apply.MatchHunk` | internal/change/patch.go:450-484 | Where one hunk goes: the end for a hunk without old lines, else its only match at or after the last one |
| `RoundTrip.RoundTripLines` | internal/change/patch.go:437-504 | A diff applied to its own file fails only as ambiguous; otherwise the spliced texts are exactly the new lines |
| `RoundTrip.PlanIsExpected` | internal/change/patch.go:443-486 | No hunk of a diff is ever missed in its own file or located elsewhere |
| `ReadBack.DataRoundTrip` | internal/change/patch.go:437-504 | The same on file data: rejected only as ambiguous, otherwise the written data is the joined new lines |
| `ReadBack.ReadsBackIfCanonical` | internal/change/patch.go:367-504 | The patched data reads back as the new lines if and only if the patched list of lines is canonical |
| `ReadBack.ReadsBackExactly` | internal/change/patch.go:367-504 | For any file: it reads back if and only if its end keeps lines apart, as below, and no lone carriage return of the patched list meets the newline of an empty line |
| `ReadBack.ReadsBackIfLinesKept` | internal/change/patch.go:409-504 | Without lone carriage returns in the file, or without empty lines after the first of the new one: it reads back if and only if the file is terminated, or the new file is empty, or its last line has text and nothing is inserted after a kept last line |
| `ReadBack.AppendingToUnterminatedLine` | internal/change/patch.go:415-433 | A concrete diff that applies without an error and does not read back as the new file |
| `Marks.MarkedRoundTrip` | internal/change/patch.go:437-448 | A diff of a file with a byte order mark, and none elsewhere, is rejected because a block is missing exactly when its first hunk shows the first line; otherwise it is rejected for ambiguity only, or the patched file is the mark and lines that with the mark are the new ones |
| `Resplit.PatchedResplits` | internal/change/patch.go:437-504 | For any hunks without breaks in inserted texts, and a file that is terminated and has no lone carriage return, re-splitting the patched data gives the spliced lines, texts and terminators |
| `PatchBlocks.ParseBlocks` | internal/change/patch.go:83-137 | One scan of SEARCH/REPLACE blocks, each under the most recent path; incomplete or pathless blocks are refused |
| `PatchBlocks.BlocksScanBack` | internal/change/patch.go:83-137 | Blocks written as text, none of whose lines reads as a marker, are scanned back as the same list |
| `PatchBlocks.FoundIsThere` | internal/change/patch.go:83-137 | Conversely, for any text: each block that is found stands between its markers, in order, under the nearest path line before it, and every other line is a path, blank or a fence |
| `PatchBlocks.MergeBlocks` | internal/change/patch.go:138-172 | One operation per file in order of first appearance; refused exactly when a created file has another block; the k-th hunk of an update has the search lines of that file's k-th block as its old side and the replacing lines as its new side, and a creation has the lines of its block |
| `BlockPatch.PatchExchanges` | internal/change/patch.go:138-504 | From the blocks to the file: an update of a merged patch, applied to a file where each search occurs exactly once after the one before, gives the file with exactly those stretches exchanged for their replacements |
| `Commit.CommitPlan` | internal/change/change.go:163-246 | All or nothing: success if and only as planned, every planned path, directory and nothing else changed, no temporary file left; on any failing call or cancellation everything is as before exactly when no restored file had set-user-ID, set-group-ID or sticky bits; a current, feasible plan without a failing call is committed |
| `Commit.CarryOut` | internal/change/change.go:195-245 | Directories, staging, application and sync, with the way back from each |
| `Commit.CheckPlan` | internal/change/change.go:163-194 | A plan passes exactly when it is not empty, every mutation is current, no path occurs twice and no planned directory exists |
| `Commit.CommittedMeans` | internal/change/change.go:163-246 | Every path of a committed plan held what the plan expected, and holds its new content with permission bits only, or nothing |
| `Commit.Rollback` | internal/change/change.go:284-292 | Undoing applied mutations, last first, never fails and restores each preimage up to its special mode bits |
| `Commit.RestoresAll` | internal/change/change.go:345-364 | The rolled-back file system equals the original if and only if no restored file had special mode bits |
| `Commit.MakeDirectories` | internal/change/change.go:195-201 | Directories are made shallowest first, up to the first failure |
| `Commit.RemoveDirectories` | internal/change/change.go:252-264 | Created directories are removed deepest first; each is empty by then |
| `Commit.StageAll` | internal/change/change.go:215-224 | Every new content is in a temporary file of its own beside its path |
| `Commit.ApplyAll` | internal/change/change.go:226-241 | Mutations are applied in order; each staged file is moved or still staged |
| `Commit.DiscardTemps` | internal/change/change.go:203-214 | All remaining temporary files are removed, in any order |
| `Commit.RestoreState` | internal/change/change.go:345-364 | One preimage comes back, whether absent, a link or a file |
| `EventLog.StreamIsContiguous` | internal/event/repository.go:88-357 | In every interleaving of commits, publications, replays, receives and closes, what a subscription replayed, received and holds is a gap-free run of the committed events after its start, and all of it when it is registered and nothing is being published |
| `EventLog.ReplayThenLive` | internal/event/repository.go:254-277 | From registration on, in every run, a replayed subscription is a prefix of the rows after the requested cursor, never moves back, and is complete when nothing is under way |
| `EventLog.RunExtends` | internal/event/repository.go:307-357 | In every run the log only grows, received events stay, and a subscription that was cut off never gets more |
| `EventLog.CutOffOnlyWhenFull` | internal/event/repository.go:334-357 | A subscription ends only by its own close or because its queue is full |
| `EventLog.AfterIsSpan` | internal/event/repository.go:279-299 | The rows after a cursor are a contiguous suffix of the log |
| `EventLog.StepKeepsInv` | internal/event/repository.go:88-357 | Every step keeps numbering, commit-before-publish order, and each subscriber's place |
| `EventRepository.Repository.CommitBatch` | internal/event/repository.go:88-155 | The batch is committed whole under consecutive numbers, or, when an event is unacceptable or a step fails, nothing changes |
| `EventRepository.Repository.PublishLocked` | internal/event/repository.go:156-164 | Every registered subscriber is visited in any order; with readers receiving in between, the publication is a run of the step system and ends with the whole log published |
| `EventRepository.Repository.PublishTo` | internal/event/repository.go:334-357 | One subscriber: old events are skipped, the rest sent, and a full queue is closed |
| `EventRepository.Repository.ListAll` | internal/event/repository.go:279-299 | The rows after the cursor in order |
| `EventRepository.Repository.ReadReplay` | internal/event/repository.go:258-271 | The replay is read under the subscriber lock |
| `EventRepository.Repository.SubscribeLockedHeld` | internal/event/repository.go:272-332 | The subscription starts after the last replayed event, with room for at least one event |
| `EventRepository.Repository.CloseSubscription` | internal/event/repository.go:319-331 | Closing twice closes once, and leaves other sessions alone |
| `Transient.OnlyToolOutputIsLost` | internal/event/transient_repository.go:144-203 | In every run an open listener loses only tool-output deltas; every other event is received or still on its way |
| `Transient.PublisherNeverBlocks` | internal/event/transient_repository.go:156-203 | Refilling always fits and never exceeds the capacity, whatever the reader does meanwhile |
| `Transient.OrderIsKept` | internal/event/transient_repository.go:185-203 | Without a receive inside an eviction, the reader sees a subsequence of what was published |
| `TransientOrder.OrderDependsOnOvertaken` | internal/event/transient_repository.go:185-203 | In every run of distinct events, what was received and is still to arrive is in order if and only if every event that a receive took another one past was given up by a later eviction |
| `TransientOrder.OrderIsKeptThroughout` | internal/event/transient_repository.go:185-203 | The order is kept at every point of a run if and only if no receive happens while the publisher drains and holds an event that it is going to put back |
| `TransientOrder.OvertakenOutputOnly` | internal/event/transient_repository.go:176-203 | Once an event other than tool output was overtaken, an open listener stays out of order for good |
| `TransientOrder.OldestMakesRoom` | internal/event/transient_repository.go:156-203 | Without a receive meanwhile, a full listener gives up its oldest tool-output delta for an event that is not one, or, without such a delta, is closed with its buffer kept |
| `Transient.ReceiveInsideEvictionOvertakes` | internal/event/transient_repository.go:185-203 | A concrete run in which a receive inside an eviction reorders two events |
| `TransientListener.Channel.PublishTo` | internal/event/transient_repository.go:156-174 | Sending, ignoring, evicting or closing is a run of the step system from the publication on |
| `TransientListener.Channel.EvictDisposable` | internal/event/transient_repository.go:185-203 | Draining and refilling without the first tool-output delta, with receives in between |
| `Semaphore.UnitsAreAccounted` | internal/agent/concurrency.go:13-91 | In every run the used count is the permits held plus grants not seen yet, within the limit, and nobody waits beside a free unit |
| `Semaphore.ServedInOrder` | internal/agent/concurrency.go:47-80 | In every run a waiter is served only after everyone ahead of it was served or gave up |
| `Semaphore.StepKeepsInv` | internal/agent/concurrency.go:24-80 | Every critical section keeps the accounting, a cancel that races a grant included |
| `Semaphore.ChildTurnSemaphore.TryAcquireUnit` | internal/agent/concurrency.go:24-35 | A unit exactly when one is free and nobody waits |
| `Semaphore.ChildTurnSemaphore.AcquireOrQueue` | internal/agent/concurrency.go:41-49 | A unit at once, or the last place in the queue |
| `Semaphore.ChildTurnSemaphore.LeaveQueue` | internal/agent/concurrency.go:53-62 | A canceled waiter removes itself, and finds itself missing exactly when a unit was handed to it |
| `Semaphore.ChildTurnSemaphore.ReleaseUnit` | internal/agent/concurrency.go:69-80 | A returned unit goes to the first waiter, or becomes free |
| `Quota.LimitsHold` | internal/agent/agent_session.go:953-1000 | In every run the attempts that hold both units are within the per-parent limit for each parent and within the global limit |
| `Quota.NothingLeaks` | internal/agent/agent_session.go:953-1000 | When all attempts are over, by success, refusal, cancel or close, every unit of every semaphore is back |
| `Quota.NoneAfterClose` | internal/agent/user_session.go:284-317 | After the user session closed no attempt gets its pair any more |
| `Quota.TryAlone` | internal/agent/agent_session.go:953-979 | A non-blocking attempt that nothing comes between gets its pair exactly if both semaphores have room and the user session is open, and otherwise leaves both as they were |
| `Quota.StepKeepsInv` | internal/agent/agent_session.go:953-1000 | Every step keeps each attempt with exactly the units that its place in the code implies |
| `Turns.OneActiveTurn` | internal/agent/agent_session.go:440-591 | In every run at most one turn of a session is active, and it is the current one |
| `Turns.FinishesOnce` | internal/agent/agent_session.go:858-914 | No turn completes twice, and a turn whose goroutine is over completed once and has a final status |
| `Turns.StatusSaysHow` | internal/agent/agent_session.go:858-896 | In every run a turn that is over has the status its end implies: succeeded without an error, canceled if it was interrupted and its context canceled, or aborted, and failed otherwise |
| `Turns.CanceledNeverDrains` | internal/agent/agent_session.go:743-803 | In every run a turn that is interrupted before it runs never begins a drain pass and does not succeed |
| `Turns.WakeIsAnswered` | internal/agent/agent_session.go:554-591 | After a wake on an active turn, or input admitted to a running one, in every run without an interrupt or shutdown, the turn begins another drain pass, or a later turn replaces it by the time it is over, unless the session was removed or shut down, the user session closed, or the turn aborted unstarted |
| `Turns.RunningHasQuota` | internal/agent/agent_session.go:743-763 | A running turn of a child has a quota of its own that is not released |
| `Turns.QuotasReturned` | internal/agent/agent_session.go:474-500 | When all turns and calls are over, every quota was released |
| `Turns.RemovedCreatesNone` | internal/agent/agent_session.go:708-741 | In every run no child is being created under a removed session |
| `Turns.WantsStays` | internal/agent/agent_session.go:743-748 | Whoever asked for a quota waits until it is answered |
| `Turns.RunKeepsBooks` | internal/agent/agent_session.go:977-978 | A released quota is never out again |
| `Turns.StepKeepsInv` | internal/agent/agent_session.go:440-914 | Every step keeps statuses, wakes, completions, restarts, and exactly one owner for each quota |
| `AgentSession.Session.CheckEmpty` | internal/agent/agent_session.go:554-573 | First section of starting an empty turn: refuse, join and wake, or go on |
| `AgentSession.Session.CommitEmpty` | internal/agent/agent_session.go:575-591 | Second section: everything is checked again; a quota for nothing is dropped |
| `AgentSession.Session.CheckAdmit` | internal/agent/agent_session.go:440-472 | First section of an admission: refuse, wait for a blocked or interrupted turn, steer a running one, or go on |
| `AgentSession.Session.CommitAdmit` | internal/agent/agent_session.go:481-503 | Second section of an admission |
| `AgentSession.Session.TryTurnQuota` | internal/agent/agent_session.go:474-480 | The outcome of the quota attempt between the two sections |
| `AgentSession.Session.NewTurnLocked` | internal/agent/agent_session.go:688-706 | The new turn is current, running with its quota or blocked without one |
| `AgentSession.Session.StartTurn` | internal/agent/agent_session.go:506-521 | A turn starts finishing, waiting or running as its status says |
| `AgentSession.Session.AbortTurn` | internal/agent/agent_session.go:523-542 | An unstarted turn is canceled, completed and its quota released |
| `AgentSession.Session.InterruptExecution` | internal/agent/agent_session.go:645-657 | An active turn is interrupted and its wake taken back |
| `AgentSession.Session.ShutdownSession` | internal/agent/agent_session.go:627-643 | No new turns, and the active one is interrupted |
| `AgentSession.Session.ReserveChildCreation` | internal/agent/agent_session.go:708-719 | The creation of a child is counted, unless the session is removed or shutting down |
| `AgentSession.Session.RemoveIfIdle` | internal/agent/agent_session.go:727-741 | A session is removed exactly if no turn is active, no child is being created and its storage can be removed; a removed one stays so |
| `AgentSession.Session.UnblockTurn` | internal/agent/agent_session.go:743-763 | A blocked turn that got its quota runs, or gives the quota back if it is no longer wanted |
| `AgentSession.Session.TakeWake` | internal/agent/agent_session.go:796-803 | A wake is taken for another round exactly when the turn is not canceled |
| `AgentSession.Session.FinishTurn` | internal/agent/agent_session.go:858-896 | From the old fields: the turn succeeded exactly when there was no error, is canceled exactly when it was interrupted and the error is the canceled context, and failed otherwise; its quota is released and it completes |
| `AgentSession.Session.RestartTurn` | internal/agent/agent_session.go:905-914 | Only a wake that is still set starts a replacement |
| `ChildTurns.RunningTurnsWithinLimits` | internal/agent/agent_session.go:743-763 | In every run of all sessions with their shared quota, the running child sessions of each parent are within the per-parent limit, and all together within the global one |
| `ChildTurns.OnlyReleasesAreLeft` | internal/agent/agent_session.go:953-1000 | In every run of all sessions with their quota: when no turn and no call is under way, every attempt came to nothing, or was let go of and only has to give its units back |
| `ChildTurns.EveryUnitComesBack` | internal/agent/agent_session.go:953-1000 | ... and when that is done, every unit of every semaphore is back |
| `SafeCut.SafeCut` | internal/compaction/service.go:265-316 | Always at least the recent complete messages stay and nothing incomplete goes; with distinct call IDs and no trap it is the last cut that splits no group and compacts no unanswered call, under any map order, and none is found exactly when there is none; it is always the outcome of some order |
| `SafeCut.OrderMatters` | internal/compaction/service.go:300-311 | Two orders of all groups end at different cuts if and only if one of them ends inside a group, if and only if there is a trap: a cut reached by backing over groups, and a move from it into groups that all end before it. Without a trap every order finds the last cut that is inside no group; some order always does |
| `SafeCut.SafeUnlessTrapped` | internal/compaction/service.go:265-316 | For any messages with distinct call IDs: under every map order the cut keeps calls with their results and compacts no unanswered call, if and only if there is no trap below the place where the search for groups starts |
| `SafeCut.WellNestedIsFree` | internal/compaction/service.go:300-311 | Where no two groups cross there is no trap |
| `SafeCut.CrossingDependsOnOrder` | internal/compaction/service.go:300-311 | Five messages with two crossing groups: two orders of the map give two different cuts, and one of them separates a call from its result |
| `SafeCut.NoneInsideMeans` | internal/compaction/service.go:285-299 | A cut is inside no scanned group exactly when it keeps every call with all its results and compacts no unanswered call |
| `SafeCut.FindGroups` | internal/compaction/service.go:285-299 | The scan of all parts for starts and last results of calls |
| `SafeCut.RetainRecent` | internal/compaction/service.go:269-278 | The last place that leaves enough complete messages |
| `SafeCut.BeforeIncomplete` | internal/compaction/service.go:279-284 | The cut moves before the first incomplete message |
| `Epochs.EpochsFormChain` | internal/compaction/repository.go:118-190 | In every run ordinals are consecutive, cutoffs strictly increase, and each record links an epoch to the next |
| `Epochs.RecordsTileHistory` | internal/compaction/repository.go:118-190 | In every run each message is in the range of exactly one record or in the live suffix, never in both |
| `Epochs.SettledStays` | internal/compaction/repository.go:192-269 | In every run an attempt leaves active at most once and never changes afterwards |
| `Epochs.ActiveEndsOnlyBy` | internal/compaction/repository.go:118-269 | In every run an attempt leaves active only by the completion or failure of its own owner, or by a repair that knows its owner dead, and only its status changes |
| `Epochs.OneCompletesPerEpoch` | internal/compaction/repository.go:151-158 | Of competing attempts on one epoch at most one completes |
| `Epochs.StepKeepsInv` | internal/compaction/repository.go:86-269 | Every transaction keeps the chain, the ranges, and the attempts planned on earlier snapshots |
| `CompactionStore.Repository.LoadState` | internal/compaction/repository.go:31-68 | The newest epoch and the messages from its cutoff on |
| `CompactionStore.Repository.PlanCut` | internal/compaction/service.go:189-199 | A plan exactly when the cut covers a message; it covers from the epoch's cutoff to the message before the cut |
| `CompactionStore.Repository.BeginAttempt` | internal/compaction/repository.go:86-116 | An active attempt of this owner is recorded |
| `CompactionStore.Repository.CompleteAttempt` | internal/compaction/repository.go:118-190 | A new epoch, a record and a completed attempt, or no change when the attempt is not active, not ours, or superseded |
| `CompactionStore.Repository.FailAttempt` | internal/compaction/repository.go:192-215 | Only an active attempt of this owner fails |
| `CompactionStore.Repository.RepairActive` | internal/compaction/repository.go:217-269 | Afterwards no active attempt has an owner that is known dead; every other attempt is unchanged, a changed one differs only in being interrupted, and messages, epochs and records stay |
| `RetryStream.RetryStream.Next` | internal/provider/stream_retry.go:60-131 | The result and all fields are a function of the fields before; at most eleven connections are opened; what was delivered is a prefix of the last connection's events in canonical form; nothing is reopened once anything was shown; an error after output comes when all of it was delivered; a clean end before output delivers the bookkeeping exactly when reconnections are left |
| `RetryStream.CleanEndCanLoseBookkeeping` | internal/provider/stream_retry.go:92-105 | A concrete script: after five drops, the usage of a response that ends cleanly before output is not delivered; without drops it is |
| `RetryStream.LatestMeans` | internal/provider/stream_retry.go:133-141 | The buffer has the last bookkeeping event of each kind that came, once, and nothing else |
| `RetryStream.RetryStream.BufferBookkeeping` | internal/provider/stream_retry.go:133-141 | A bookkeeping event replaces the one of its kind in place, or goes to the end |
| `RetryStream.RetryStream.Reopen` | internal/provider/stream_retry.go:143-170 | A new connection starts clean, or the stream stays closed |
| `RetryStream.OpenWithHeaderRetry` | internal/provider/provider.go:267-308 | A response is returned exactly if one answer opens it, all answers before are header timeouts or overload rejections, and the rejections are within the shared budget of five, which they are counted against; otherwise the error is that of the first other answer, or overload when the budget is spent |
| `RetryStream.ConnectMeans` | internal/provider/provider.go:267-308 | For every script one answer decides; it says which connection there is or why there is none, and the rejections before it are what was spent |
| `RetryStream.FinalEndIsReturned` | internal/provider/stream_retry.go:92-94 | Before output a permanent failure or a cancellation is handed on without another connection, whatever reconnections are left |
| `RetryStream.DropReconnects` | internal/provider/stream_retry.go:92-131 | Before output a dropped connection is followed by another one, read from its beginning with nothing kept, exactly while a reconnection is left; the last drop is handed on |
| `RetryStream.OverloadReconnects` | internal/provider/stream_retry.go:73-83 | An overload reported before output reconnects exactly while the shared budget lasts |
| `Queue.IdNamesOneOccurrence` | internal/queue/queue.go:288-355 | In every run no delivery ID is offered with two occurrences, neither later nor from two queues |
| `Queue.AppendedAtMostOnce` | internal/queue/queue.go:118-159 | In every run, crashes and failed writes included, an ID-idempotent receiver appends each occurrence at most once, if nothing is pushed in front of an accepted item that was not removed yet |
| `Queue.FrontPushDuplicates` | internal/queue/queue.go:143-151 | After any such push the run can go on so that the receiver appends the item twice: the condition is exact |
| `Queue.FrontPushIsReached` | internal/queue/queue.go:118-159 | Such a push is reached by a run: the deliverer crashes between acceptance and removal |
| `Queue.DeliveredIsReceived` | internal/queue/queue.go:341-352 | An item leaves its queue by delivery only after the receiver has it |
| `Queue.StepKeepsInv` | internal/queue/queue.go:118-355 | Every step keeps a stored delivery ID with the item at the front it was made for |
| `QueueStore.QueueStore.PushItems` | internal/queue/queue.go:118-159 | Items at the back in order, or at the front as if pushed one by one, which ends the delivery of the front item |
| `QueueStore.QueueStore.TakeItems` | internal/queue/queue.go:227-259 | Up to the asked number of items from either end in order of removal; taking the front item ends its delivery |
| `QueueStore.QueueStore.MonitorQueue` | internal/queue/queue.go:261-286 | Monitoring changes nothing else |
| `QueueStore.QueueStore.FirstDue` | internal/queue/queue.go:305-329 | The first monitored queue with an item, in the order of names |
| `QueueStore.QueueStore.OfferItem` | internal/queue/queue.go:330-341 | The stored delivery ID is used again, or a new one is stored before the offer |
| `QueueStore.QueueStore.SettleOffer` | internal/queue/queue.go:341-352 | Refused, accepted and removed, or accepted and left behind by a crash or failed write |
| `Id.Encode` | internal/id/id.go:38-57 | The accumulator loop writes the 128-bit value of the bytes in 26 base-32 digits and reads no byte out of bounds |
| `Id.EncodedKeepsOrder` | internal/id/id.go:38-57 | Encodings sort as strings exactly as the bytes do, and are equal only for equal bytes |
| `Id.PayloadsAreEncodings` | internal/id/id.go:67-79 | The accepted payloads are exactly the encodings of 16 bytes |
| `Id.Validate` | internal/id/id.go:59-81 | Accepts exactly a valid prefix, an underscore and the encoding of some 16 bytes |
| `Framing.FramesReadBack` | internal/mcp/framing.go:30-165 | Reading any concatenation of frames within the limits returns the same bodies in order and then the end of the input |
| `Framing.FrameReadsBack` | internal/mcp/framing.go:30-82 | One frame is read as its body, and the reader is left exactly behind it |
| `Framing.FrameMeans` | internal/mcp/framing.go:30-102 | For every input: a frame is read exactly if it starts with well-formed header lines and an empty one within the byte limit that declare one length within the limit, and a valid body of that length follows |
| `Framing.HeaderMeans` | internal/mcp/framing.go:48-66 | A header line without a colon or with a length that is no number of 63 bits is malformed, whatever the case of its name |
| `Framing.FramedReader.ReadOne` | internal/mcp/framing.go:30-82 | The header loop with its byte limit, duplicate and malformed lengths, and the body |
| `Framing.FramedReader.ReadHeaderLine` | internal/mcp/framing.go:84-102 | A line within the limit, however many buffers it spans |
| `Framing.FramedWriter.WriteBody` | internal/mcp/framing.go:132-165 | What was written is always a prefix of the frame, and all of it exactly on success; nothing for an invalid, oversized or canceled body |
| `Rpc.SendNeverBlocks` | internal/mcp/rpc.go:201-260 | In every run a message for a caller never meets another in its channel |
| `Rpc.NoCallerIsForgotten` | internal/mcp/rpc.go:67-127 | In every run a caller that has not returned is pending or its message is on its way |
| `Rpc.AnswerReachesCaller` | internal/mcp/rpc.go:92-126 | A pending caller that awaits its answer gets exactly the answer taken for it |
| `Rpc.AnswersMatch` | internal/mcp/rpc.go:67-127 | A caller gets the answer taken for its own request; a canceled request is never answered too |
| `Rpc.AnsweredOnce` | internal/mcp/rpc.go:201-216 | Later answers to a settled request are ignored |
| `Rpc.AnswerCanBeLost` | internal/mcp/rpc.go:92-126 | In every reached state, a waiting caller whose answer was taken can still be told that the peer closed if and only if its request is being written or the answer is not in its channel |
| `Rpc.WhatAnsweredCallsReturn` | internal/mcp/rpc.go:67-127 | In every run a call whose answer was taken returns that answer, its cancellation, its write failure, or that the peer closed; the last if and only if it noticed the closing in such a state |
| `Rpc.ToldOnlyTheTruth` | internal/mcp/rpc.go:242-260 | Nobody is told that the peer closed unless it did |
| `Rpc.CloseCanHideAnswer` | internal/mcp/rpc.go:92-114 | It is reached with the answer in its channel while the request is being written |
| `Rpc.CloseCanOvertakeAnswer` | internal/mcp/rpc.go:115-126 | It is reached by an awaiting caller with the answer on its way to the channel |
| `Permission.SettledOnce` | internal/permission/permission.go:94-193 | In every run an allowed request was allowed by the one reply that settled it, and a timed-out or withdrawn one was never replied to |
| `Permission.ReplyReachesCaller` | internal/permission/permission.go:94-183 | An interactive request is settled by the first reply and returns just that decision |
| `Permission.NoLateReply` | internal/permission/permission.go:168-183 | A settled request is never settled again |
| `HeadTail.Buffer.Push` | internal/process/persistent.go:785-799 | Whatever the pieces, the buffer holds the first and the last bytes of everything pushed and counts the rest |
| `HeadTail.Buffer.Drain` | internal/process/persistent.go:801-805 | Hands out the ends of the stream and starts over |

## Left out

- Rendering the text of hunk headers and reading the unified format, which is a library's: hunks stay structured.
- Planning a patch against the workspace, path checks of a patch and file modes of new files: only the merged blocks and hunks are modelled.
- Symbolic links as results of a commit: planning never produces them; links as preimages are modelled.
- Crashes during a commit: the source undoes a commit only while its process runs.
- Marks.MarkedRoundTrip: assumes that the mark occurs only at the start of the file, because another one could make a block match elsewhere.
- Queue.AppendedAtMostOnce: does not hold for runs with a front push onto an accepted item, because such a push drops the delivery ID; the converse is Queue.FrontPushDuplicates.
- Lock directories left behind by a crashed queue operation: in the model a crash frees the queue, which allows more runs.
- Queue files as text, their size limit, and names: a queue is its metadata and items.
- Deadlock freedom, delays and timeouts as durations: waiting is a step that may happen, and progress claims are about what a run that gets further has done.
- Turns.WakeIsAnswered: says what has happened by the time the turn is over, not that a turn ends, because a turn may run for ever.
- The drain pass itself, tools, prompts, models and goals: a drain pass, a queue notification and a continuation are open outcomes of their steps.
- Output, usage and truncation of turns, lifecycle observers and published turn events: they do not feed back into the coordinator.
- What creating and removing a child session does beyond its parent's count: a child is added under an existing parent, and whether its storage can be removed is an input.
- Token estimates and the trigger for compaction, summary text and its byte limit: the cut and the chain do not depend on them.
- Event payloads beyond kind, data and number, and the projections committed with them.
- Back-off delays and notices of retries.
- Generating identifiers from the clock and random bytes: the encoder takes any 16 bytes.
- JSON-RPC message decoding, server requests and notifications: the request table sees registrations, answers and closing.
- Processes, terminals, sandboxing, network, storage and user interface.
