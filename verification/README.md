# AdRouter agent: the hard core, modelled and proved

This project models the stateful and algorithmic core of the AdRouter desktop agent in Dafny and
proves properties of it. `dafny verify dfyconfig.toml` checks everything. Each module follows one
part of the program; parts that change state step by step are classes and methods with loops, each
proved against a function of the old state, and the lemmas say what that function guarantees. Every
lemma switches Dafny's automatic induction off, so that each proof is the one in its body.

| module | part of the program |
|---|---|
| `LineDiff` | the changed-line view: table of common lines, greedy walk, rows with line numbers |
| `Scheduler` | the bounded queue of read and write leases |
| `SupervisorLeases` | the life of a lease from queue to child process exit, over the scheduler's state |
| `RpcGate` | the gate for signed local requests: skew, rate window, nonces |
| `Json`, `SessionProjection`, `Journal` | the event journal, its session index and checkpoints, backfill and fork |
| `Compaction`, `ForcedCompaction` | message units, recent boundary, summary chunks, incremental summary; and the compaction of contexts already sent |
| `Ndjson` | the parser of the router's event stream |
| `Presence` | the one-minute presence prompt and the calls that wait for its acknowledgement |
| `WorkspaceFiles`, `StructuredFiles` | file transactions with rollback over compare-and-swap primitives, suspended at their awaits |
| `WorkspaceListing`, `RecoveryVault`, `VaultRuns` | the native listing, and the recovery vault over runs of operations and restores |
| `DependencyApply`, `OperationQueue` | applying a reviewed dependency proposal, and the queue in front of it |
| `JsonText`, `Canonical` | printed JSON, canonical JSON and the binding of an approved operation |
| `GitText` | reading `git status -z`, and patches of selected hunks |
| `Text`, `Sets`, `Wrappers` | splitting and joining, sizes of finite sets, `Option` |

## What the proofs found

Each of these is a point where the plain claim is false of the code; the model keeps the code and the
named member gives the exact condition or a witness.

- Two equal files with more than 4,000,000 table cells are shown as removed and added in full: the
  operations are a shortest script if and only if the pair is within the limit or shares no line
  (`LineDiff.OperationsShortestExactly`), and a diff is empty if and only if the sources are equal up to
  CRLF and within the limit (`LineDiff.NoRowsExactly`).
- A running child holds its lease if and only if its launch was not rejected
  (`SupervisorLeases.RunningChildHoldsExactly`): a rejected child can run beside a conflicting task
  (`SupervisorLeases.RejectedChildRunsBeside`).
- The exit of a launched child loses its lease, for every later run, if and only if the child is neither
  given up nor the current one of its thread (`SupervisorLeases.ExitLosesExactly`). With one worker that never
  happens (`SupervisorLeases.OneWorkerReturnsAll`); with two it does, when a turn is stopped while its launch waits, the
  thread is started again, and the second child takes the first one's place
  (`SupervisorLeases.SupersededChildLosesLease`).
- Stopping a pending turn prevents the fork if and only if the launch is not already waiting at its
  await (`SupervisorLeases.StopPreventsForkExactly`).
- The gate reads its clock twice for a request, so a jump of one millisecond between the two readings lets a
  minute see 61 admissions (`RpcGate.SixtyOneInOneMinute`). The bound on unexpired nonces is 609, which is met
  (`RpcGate.NoncesReachBound`); it is 600 when the two readings agree (`RpcGate.UnexpiredNoncesBounded`). Either
  way the limit of 1,024 is never met (`RpcGate.CapacityNeverReached`).
- Times and nonces are kept in memory, so a restart forgets them: an accepted request is accepted again exactly
  when it passes the checks and nothing since the start forbids it (`RpcGate.ReplayedExactly`), for example at once
  after a restart (`RpcGate.RestartForgets`).
- The stream parser's line limit depends on the chunks: an unfinished line over the limit stops it
  even where one push of the same text would pass (`Ndjson.ChunkingExactly`). Its branch for a malformed
  trailing event is dead, as the remainder is cleared first.
- The deterministic fallback of a summary goes through all messages, where a model request leaves out those
  with sponsor data. So a sponsor-marked message is handed to the summary if and only if, since the last
  reset, the fallback took a stretch with one (`Compaction.MarkedHandedExactly`). That happens without a model, and
  with one that fails nothing, when the first stretch holds nothing else (`Compaction.MarkedHandedOnce`).
- When a request is over the input limit, the context already sent is compacted once more with the state of the
  conversation's own compactions. Budget and system prompt stay the same in a session, so the first fold of such a retry
  takes in nothing but the summary, whatever signatures agree, and the retry stands for exactly what was sent before
  (`ForcedCompaction.RetrySendsSame`). Nothing sent ever lacks a message (`ForcedCompaction.NothingIsMissing`). But when
  the retry folds a second time, its summary stands for more messages of the conversation than its count says. A later
  compaction of the conversation sends messages twice if and only if it goes on from such a summary, which takes two
  messages of the same role, time and text (`ForcedCompaction.AlwaysSendsAllExactly`,
  `ForcedCompaction.RepeatedExactly`, `ForcedCompaction.RepeatsAlike`).
- The presence gate reads its clock up to four times in a call. A pause that reads it before the deadline and
  again behind it hides the prompt until the gate is resumed (`Presence.PauseHides`); otherwise, and only then, a
  prompt is pending exactly when a minute of un-paused time has passed (`Presence.PendingExactly`).
- `boundedText` keeps its bound if and only if the text already fits or the limit is over 250: at 250 and
  below, `slice(-0)` appends the whole text (`Compaction.BoundedTextExactly`). Its callers pass more.
- The vault is counted through a listing that stops after 101 directories and files, and the flag that says so is
  dropped. Every operation has a directory of its own with at most two files, so a listing never holds more than 67
  files and the limit of 100 refuses nothing (`VaultRuns.CountNeverRefuses`). The count is right in every order of
  the walk if and only if there are no files or directories and files are at most 101
  (`RecoveryVault.CountedInEveryOrderExactly`). So small deletes go on without an end, `n` of them leaving `2n`
  files and all their bytes: 51 are over the one limit, and as many as one likes over the other
  (`VaultRuns.DeletesPileUp`). The limits hold exactly when what is kept for operations not restored is within them
  (`VaultRuns.VaultIsWhatIsKept`). Even a right byte sum leaves out the record (`VaultRuns.OverrunAtMostRecord`).
- A file operation waits between its review check, its snapshot and its reading, and neither snapshot nor reading is
  compared with what was reviewed. It acts on the reviewed bytes if and only if the source is as at the check when it is read
  (`StructuredFiles.ReviewedExactly`), and its payload can be restored if and only if the source is the same at
  snapshot and reading; otherwise no restore of it is ever carried out (`StructuredFiles.RestorableExactly`). Every
  combination occurs (`StructuredFiles.DoneWithAny`).
- A file named `record.json` is neither moved nor deleted while its record is there: its payload path is that of the
  record (`StructuredFiles.DoneExactly`, whose condition says so).
- A status listing that Git's output limit cuts one to three characters into an entry reads as
  malformed, though it is only truncated (`GitText.CutListing`).
- A patch with an empty line, which Git prints under `diff.suppressBlankEmpty`, does not fit the manifest's
  schema (`GitText.ArgumentsFitExactly`).

## Model

| member | source | states |
|---|---|---|
| `LineDiff.LinesKeepSource` | src/renderer/line-diff.ts:26-33 | lines and final-newline flag determine the source up to CRLF; no lines only for the empty source |
| `LineDiff.FillRow` | src/renderer/line-diff.ts:49-56 | one row of the table from the one below it, the rows already filled kept |
| `LineDiff.FillTable` | src/renderer/line-diff.ts:46-57 | in-place table: every cell holds the number of common lines of its two suffixes, with no 32-bit overflow |
| `LineDiff.CommonIsUpperBound` | src/renderer/line-diff.ts:46-57 | no script from one suffix to the other keeps more lines than the table entry |
| `LineDiff.WalkKeeps` | src/renderer/line-diff.ts:59-88 | from every cell the greedy walk is a script between the suffixes and keeps exactly the table entry's number of lines |
| `LineDiff.WalkTable` | src/renderer/line-diff.ts:59-79 | the main loop pushes the walk, as far as both sides last |
| `LineDiff.PushRest` | src/renderer/line-diff.ts:80-87 | the two closing loops push what is left of either side |
| `LineDiff.ChangedMiddle` | src/renderer/line-diff.ts:35-89 | table, walk and both early returns give a script from original to current, shortest within the cell limit |
| `LineDiff.OperationsTurn` | src/renderer/line-diff.ts:35-89 | dropping the added (removed) steps gives the original (current) lines, for every pair, over the limit too |
| `LineDiff.ShortestExactly` | src/renderer/line-diff.ts:46-57 | a script is shortest among all scripts exactly when it keeps as many lines as the table's first entry says |
| `LineDiff.OperationsShortestExactly` | src/renderer/line-diff.ts:35-89 | no script has fewer removals and additions, if and only if the pair is within 4,000,000 cells or shares no line |
| `LineDiff.ChangedRows` | src/renderer/line-diff.ts:101-125 | the row loop gives the rows of the operations with true line numbers and ellipses |
| `LineDiff.BuildChangedLineDiff` | src/renderer/line-diff.ts:91-137 | the whole view, the 20,000-line refusal and the newline row included |
| `LineDiff.EveryRowRebuilds` | src/renderer/line-diff.ts:107-125 | a reader that refuses wrong numbers, wrong texts and misplaced ellipses rebuilds the current lines from any point of the walk on |
| `LineDiff.DiffReconstructs` | src/renderer/line-diff.ts:91-137 | the rows alone rebuild the current source's lines and final newline from the original |
| `LineDiff.SameLinesExactly` | src/renderer/line-diff.ts:26-33 | two sources have the same lines exactly when equal up to CRLF |
| `LineDiff.NoRowsExactly` | src/renderer/line-diff.ts:91-137 | no rows exactly when the sources are equal up to CRLF and within the cell limit |
| `Scheduler.ConflictShape` | src/main/runtime-scheduler.ts:32-37 | conflict is symmetric and not transitive |
| `Scheduler.RuntimeScheduler.Drain` | src/main/runtime-scheduler.ts:122-143 | rescanning from the front after each start ends in the state of one forward pass |
| `Scheduler.DrainAfterStart` | src/main/runtime-scheduler.ts:122-143 | starting the first startable task does not change what draining leads to |
| `Scheduler.PassStartsFirstReady` | src/main/runtime-scheduler.ts:114-143 | started are exactly the first ready tasks in queue order, as many as there are free slots |
| `Scheduler.LeftBlocked` | src/main/runtime-scheduler.ts:114-120 | with slots to spare, whoever is left clashes with an active task or an earlier queued one |
| `Scheduler.DrainedSettles` | src/main/runtime-scheduler.ts:122-143 | after draining nothing startable is left in the queue |
| `Scheduler.DrainKeepsLoaded` | src/main/runtime-scheduler.ts:122-143 | draining a consistent state gives pairwise compatible active leases within capacity and unique ids |
| `Scheduler.RuntimeScheduler.constructor` | src/main/runtime-scheduler.ts:63-73 | an empty scheduler of the given capacity |
| `Scheduler.RuntimeScheduler.Start` | src/main/runtime-scheduler.ts:129-130 | one start moves the given task from the queue to the end of the active set, without changing where draining ends |
| `Scheduler.RuntimeScheduler.Enqueue` | src/main/runtime-scheduler.ts:75-85 | both refusals, and otherwise the state after queueing and draining, with the right answer |
| `Scheduler.RuntimeScheduler.Cancel` | src/main/runtime-scheduler.ts:87-94 | removes the queued task, if any, and drains |
| `Scheduler.RuntimeScheduler.Release` | src/main/runtime-scheduler.ts:96-100 | removes the active task, if any, and drains |
| `Scheduler.RuntimeScheduler.StartFailed` | src/main/runtime-scheduler.ts:132-139 | a failed start removes the task and drains, once |
| `Scheduler.StepKeepsValid` | src/main/runtime-scheduler.ts:75-143 | every operation keeps active leases compatible and within capacity, the queue bounded, ids unique, nothing startable waiting |
| `Scheduler.RunKeepsValid` | src/main/runtime-scheduler.ts:75-143 | so does every run of operations |
| `Scheduler.StepBlocksNoMore` | src/main/runtime-scheduler.ts:114-120 | the set of tasks blocking a queued task never gains a member |
| `Scheduler.ArrivalOrder` | src/main/runtime-scheduler.ts:75-143 | in every run conflicting tasks start in arrival order |
| `Scheduler.HeadStarts` | src/main/runtime-scheduler.ts:96-100 | the head starts on the release of its last conflicting active task |
| `Scheduler.WaitingHasReason` | src/main/runtime-scheduler.ts:114-120 | a waiting task means all workers are busy or some task blocks it |
| `Scheduler.ActiveStays` | src/main/runtime-scheduler.ts:96-143 | only an operation naming it ends an active task |
| `Scheduler.NothingFromNowhere` | src/main/runtime-scheduler.ts:75-143 | only an enqueued task becomes scheduled |
| `Scheduler.GoneAfterRemoval` | src/main/runtime-scheduler.ts:96-139 | a released or failed task is nowhere afterwards |
| `SupervisorLeases.RuntimeSupervisor.Ask` | src/main/task-service.ts:44-48 | a thread that is active, queued or being started is refused, any other is marked as being started |
| `SupervisorLeases.RuntimeSupervisor.Abandon` | src/main/task-service.ts:49-53 | a start that fails on its way leaves no mark |
| `SupervisorLeases.RuntimeSupervisor.Start` | src/main/runtime-supervisor.ts:150-164 | behind that check: registers the pending turn and enqueues its lease, undone on refusal |
| `SupervisorLeases.RuntimeSupervisor.BeginLaunch` | src/main/runtime-supervisor.ts:167-182 | the launch up to its await, with the check that the turn is still pending |
| `SupervisorLeases.RuntimeSupervisor.ForkChild` | src/main/runtime-supervisor.ts:183-206 | behind the await: no check any more, the child becomes the thread's current one |
| `SupervisorLeases.RuntimeSupervisor.HandleLaunchFailure` | src/main/runtime-supervisor.ts:750-796 | a rejected launch drops the lease and closes the child if current |
| `SupervisorLeases.RuntimeSupervisor.Finish` | src/main/runtime-supervisor.ts:798-829 | closes the current child; gives the lease back only if its exit was seen |
| `SupervisorLeases.RuntimeSupervisor.Release` | src/main/runtime-supervisor.ts:214-217 | gives the lease back to the scheduler, if it still holds it |
| `SupervisorLeases.RuntimeSupervisor.ChildExits` | src/main/runtime-supervisor.ts:214-223 | the exit handler, closing or not |
| `SupervisorLeases.RuntimeSupervisor.StopPending` | src/main/runtime-supervisor.ts:361-368 | stopping a pending turn cancels it in the scheduler |
| `SupervisorLeases.NextKeepsInv` | src/main/runtime-supervisor.ts:131-223 | every handler keeps the lease-lifetime invariant |
| `SupervisorLeases.RunKeepsInv` | src/main/runtime-supervisor.ts:131-223 | so does every run of handlers |
| `SupervisorLeases.LeaseReturnedOnceAfterExit` | src/main/runtime-supervisor.ts:214-223 | in every run a resolved launch's lease is held until its exit is seen and given back at most once |
| `SupervisorLeases.RunningChildHoldsExactly` | src/main/runtime-supervisor.ts:185-223 | in every run a forked child that has not exited holds its lease exactly when its launch was not rejected |
| `SupervisorLeases.LiveChildrenNeverConflict` | src/main/runtime-supervisor.ts:798-829 | two running children whose launches were not rejected never hold conflicting leases |
| `SupervisorLeases.ExitGivesBackExactly` | src/main/runtime-supervisor.ts:214-223 | an exit gives the lease of a child that was not rejected back exactly when the child was given up or is current |
| `SupervisorLeases.OneWorkerNeverLeaks` | src/main/runtime-supervisor.ts:214-223 | with one worker, as configured, every exit gives the lease back |
| `SupervisorLeases.OneWorkerReturnsAll` | src/main/runtime-supervisor.ts:214-223 | in every run with one worker each launched child that has exited has given its lease back |
| `SupervisorLeases.StopPreventsForkExactly` | src/main/runtime-supervisor.ts:361-368 | a stop prevents the fork in all later runs exactly when the launch is not awaiting |
| `SupervisorLeases.NeverLaunchesStays` | src/main/runtime-supervisor.ts:167-183 | a turn that is neither pending nor awaiting never launches |
| `SupervisorLeases.RejectDropsBeforeExit` | src/main/runtime-scheduler.ts:132-139 | a rejection after the fork drops the lease before the child's exit |
| `SupervisorLeases.RejectedChildRunsBeside` | src/main/runtime-scheduler.ts:132-139 | a run in which a rejected child still runs while a conflicting task is launched, for any two conflicting leases |
| `SupervisorLeases.LostStays` | src/main/runtime-supervisor.ts:214-223 | a lease still held after the exit of its launched child is held in every later run |
| `SupervisorLeases.ExitLosesExactly` | src/main/runtime-supervisor.ts:214-223 | an exit loses the lease for every later run exactly when the child is neither given up nor current |
| `SupervisorLeases.SupersededChildLosesLease` | src/main/runtime-supervisor.ts:183-206 | a run with two workers that ends so, for any two leases that do not conflict |
| `RpcGate.SignedRequestGate.VerifySignedRequest` | src/main/local-rpc-server.ts:465-513 | every check in the code's order, and the state it leaves also when it refuses |
| `RpcGate.Prune` | src/main/local-rpc-server.ts:500-503 | deletes exactly the expired nonces |
| `RpcGate.RunConsistent` | src/main/local-rpc-server.ts:494-511 | in every run times and nonces are those the history implies |
| `RpcGate.MinuteBound` | src/main/local-rpc-server.ts:494-499 | no half-open minute sees more than 61 admissions, 60 when the clock readings agree |
| `RpcGate.RunPaced` | src/main/local-rpc-server.ts:494-499 | every run's admissions obey the sliding window |
| `RpcGate.UnexpiredNoncesBounded` | src/main/local-rpc-server.ts:500-511 | at most 609 (600) unexpired nonces for a client, in every run and at every later moment |
| `RpcGate.OutcomeIsJudged` | src/main/local-rpc-server.ts:465-513 | outcomes are decided by the earlier requests and their outcomes alone |
| `RpcGate.CapacityNeverReached` | src/main/local-rpc-server.ts:507-509 | the nonce capacity refusal cannot happen |
| `RpcGate.AcceptedOnce` | src/main/local-rpc-server.ts:465-513 | the same signed request is accepted at most once in every run |
| `RpcGate.SixtyOneInOneMinute` | src/main/local-rpc-server.ts:682-685 | a run with 61 admissions in one minute, the clock jumping by one millisecond between two readings |
| `RpcGate.NoncesReachBound` | src/main/local-rpc-server.ts:494-511 | a run that leaves 609 unexpired nonces, so the bound is met |
| `RpcGate.ReplayedExactly` | src/main/local-rpc-server.ts:187-188 | over runs with restarts, an accepted request is accepted again exactly when it passes the checks, the requests since the start leave room, and none of them took its nonce |
| `RpcGate.RestartForgets` | src/main/local-rpc-server.ts:187-188 | every request that passes the checks is refused a second time, and accepted after a restart |
| `Json.RemovalExactly` | src/shared/security.ts:29-55 | removal is the identity exactly on values without a sponsor key, and leaves none |
| `SessionProjection.UserStable` | src/main/database.ts:1748-1757 | a projected user message projects to itself |
| `SessionProjection.AssistantStable` | src/main/database.ts:1758-1778 | likewise for an assistant message, token counts and defaults included |
| `SessionProjection.ToolStable` | src/main/database.ts:1779-1794 | likewise for a tool result |
| `SessionProjection.CompactionStable` | src/main/database.ts:1795-1808 | likewise for a compaction, with any of its optional fields missing |
| `SessionProjection.AnchorCopied` | src/main/session-service.ts:563-571 | copying a context anchor restores the event behind it |
| `SessionProjection.CopyIsFaithful` | src/main/session-service.ts:531-572 | project, copy, project again is the identity on kind and payload, for all five kinds |
| `Journal.AppDatabase.AppendEvent` | src/main/database.ts:1262-1306 | appends with the next sequence and projects, in one transaction |
| `Journal.AppDatabase.ProjectSessionEvent` | src/main/database.ts:1827-1924 | one event into the index: checkpoint, entry or nothing, never twice |
| `Journal.AppDatabase.BackfillSessionProjection` | src/main/database.ts:1953-1968 | every event again; no change on a complete index |
| `Journal.ProjectNext` | src/main/database.ts:1827-1924 | projecting the next event extends the indexed prefix by one and touches no other thread |
| `Journal.ProjectAgain` | src/main/database.ts:1829-1833 | projecting an indexed event changes nothing |
| `Journal.AppendKeepsInv` | src/main/database.ts:1262-1306 | an append keeps sequences numbered and the index equal to the replay |
| `Journal.BackfillRebuilds` | src/main/database.ts:1953-1968 | backfill completes any index that covers a prefix of each thread |
| `Journal.BackfillIdempotent` | src/main/database.ts:1953-1968 | backfill changes nothing on a complete index |
| `Journal.EmptyReplay` | src/main/database.ts:1953-1968 | an empty index covers empty prefixes, so backfill rebuilds it whole |
| `Journal.CheckpointIntact` | src/main/session-service.ts:500-508 | a checkpoint's digest covers exactly the entries up to its ordinal, so the integrity check passes |
| `Journal.EntryCopies` | src/main/session-service.ts:531-572 | every indexed entry can be copied and makes itself again |
| `Journal.SessionService.Fork` | src/main/session-service.ts:495-529 | forks exactly when the checkpoint exists, keeps the invariant, changes nothing otherwise |
| `Journal.ForkIsFaithful` | src/main/session-service.ts:495-529 | the fork's entries are the source's first ones in kind and payload, other threads unchanged |
| `Journal.OrdinalsNumbered` | src/main/database.ts:1877-1884 | ordinals are 1 to k |
| `Journal.EveryRunInOrder` | src/main/database.ts:1262-1306 | after every run of creations, appends, reopenings and forks, the index is the replay and all numbers count from 1 |
| `Compaction.MessageUnits` | src/runtime/agent-session.ts:425-451 | the nested loops give the units |
| `Compaction.StartsAreCleanCuts` | src/runtime/agent-session.ts:425-451 | units start exactly where a cut splits no assistant message from the results directly following it |
| `Compaction.RecentBoundary` | src/runtime/agent-session.ts:453-466 | the backward loop finds the latest clean cut with enough tokens, or 0 |
| `Compaction.LatestCutIs` | src/runtime/agent-session.ts:453-466 | that cut is clean and large enough, and every later clean cut is too small |
| `Compaction.LatestCutAntitone` | src/runtime/agent-session.ts:453-466 | asking for more tokens never moves the boundary forward |
| `Compaction.BoundedTextExactly` | src/runtime/agent-session.ts:468-475 | the bound holds exactly when the text fits or the limit is over 250; then prefix and suffix are the text's own |
| `Compaction.SummaryChunks` | src/runtime/agent-session.ts:510-532 | chunks in order hold every eligible message once; several pieces only within the limit, cut as late as possible; which they are is fixed by the messages |
| `Compaction.FoldChunks` | src/runtime/agent-session.ts:597-618 | chunk after chunk is folded in, up to the first request that fails |
| `Compaction.UpdateSummary` | src/runtime/agent-session.ts:568-628 | the previous summary plus the eligible messages, or plus all messages when the fallback makes it |
| `Compaction.FoldedFaithfulExactly` | src/runtime/agent-session.ts:661-680 | a fold stands for each eligible message once and in order exactly when it reset or extended a summary that did, by model or by fallback |
| `Compaction.ContextCompaction.Extend` | src/runtime/agent-session.ts:672-680 | one fold: summary, count and signature move to the boundary together |
| `Compaction.ContextCompaction.CompactMessages` | src/runtime/agent-session.ts:630-713 | state and result of one compaction, the second tighter cut included |
| `Compaction.CompactedFaithful` | src/runtime/agent-session.ts:630-713 | a compaction keeps that, and its result is the list or the summary with the rest from a clean cut on |
| `Compaction.RunFaithful` | src/runtime/agent-session.ts:630-713 | over every series on a growing list each eligible message is folded in exactly once and in order, resets and model failures included |
| `Compaction.MarkedHandedExactly` | src/runtime/agent-session.ts:534-628 | a sponsor-marked message is handed to the summary exactly when the fallback took a stretch with one since the last reset |
| `Compaction.MarkedHandedOnce` | src/runtime/agent-session.ts:585-622 | two such runs, without a model and with one that fails nothing |
| `ForcedCompaction.FoldStandsExactly` | src/runtime/agent-session.ts:661-680 | a fold over messages that are summaries and copies stands for the originals exactly when it reset or went on from a summary that did |
| `ForcedCompaction.CompactedStandsExactly` | src/runtime/agent-session.ts:630-713 | what a compaction sends stands for its whole list exactly when it does not go on from the summary of something else |
| `ForcedCompaction.CompactedMeans` | src/runtime/agent-session.ts:661-713 | a compaction adds to the summary it goes on from exactly what the list stands for from its count on |
| `ForcedCompaction.NoCutBehind` | src/runtime/agent-session.ts:651-658 | behind the boundary of a compaction no later clean cut leaves as many tokens as it asked for |
| `ForcedCompaction.RetryBoundary` | src/runtime/agent-session.ts:651-658 | so, asked for the same tokens again, the summary and what followed it are cut behind the summary at most |
| `ForcedCompaction.RenderedHeaded` | src/runtime/pi-provider.ts:323-337 | the context compacted again is a message that stands for the summary, and the conversation behind it as it is |
| `ForcedCompaction.NextKeepsInv` | src/runtime/agent-session.ts:924-967 | every request and every retry keeps: the summary holds at least what it stands for, and nothing is missing from what was sent |
| `ForcedCompaction.NothingIsMissing` | src/runtime/agent-session.ts:924-967 | over every series of requests and retries of a session every eligible message of the conversation is in what was sent, in order |
| `ForcedCompaction.RetrySendsSame` | src/runtime/agent-session.ts:924-942 | in every series a retry behind a compaction first folds the summary at most, sends what was sent before, and leaves a summary of that and of what its second fold took in |
| `ForcedCompaction.StepExactly` | src/runtime/agent-session.ts:661-680 | from a session that sends everything once, the next step does so exactly when it does not go on from a summary that, behind its count, holds eligible messages |
| `ForcedCompaction.AlwaysSendsAllExactly` | src/runtime/agent-session.ts:661-680 | over every series all that is sent stands for the whole conversation, each message once and in order, exactly when no compaction of the conversation goes on from such a summary |
| `ForcedCompaction.RepeatedExactly` | src/runtime/agent-session.ts:661-680 | the first compaction that does sends what the summary stood for and then everything from its count on |
| `ForcedCompaction.RepeatsAlike` | src/runtime/agent-session.ts:477-481 | a request, its retry and the next request in one budget: the third sends a message twice exactly when that message has the role, time and text of an earlier one |
| `Ndjson.NdjsonParser.Push` | src/runtime/ndjson.ts:165-168 | a pushed chunk: the completed lines' events, the new remainder and accounts |
| `Ndjson.NdjsonParser.Finish` | src/runtime/ndjson.ts:170-173 | the end: the remainder read as a last line |
| `Ndjson.NdjsonParser.Drain` | src/runtime/ndjson.ts:175-219 | the line loop with all its limits |
| `Ndjson.NdjsonParser.DrainLine` | src/runtime/ndjson.ts:184-212 | one line: skipped, refused, done, malformed or an accounted event |
| `Ndjson.NdjsonParser.AccountToolCall` | src/runtime/ndjson.ts:221-251 | identity, conflict, count and byte checks, and the accounts they leave |
| `Ndjson.SplitConcat` | src/runtime/ndjson.ts:176-177 | splitting goes on behind a chunk from the remainder, CR LF cut in half included |
| `Ndjson.PushAllExactly` | src/runtime/ndjson.ts:165-219 | after any chunks the parser stands where one push brings it, unless a remainder was too long |
| `Ndjson.ChunkingExactly` | src/runtime/ndjson.ts:175-219 | a chunked run equals one push and finish exactly when no chunk leaves an unfinished line over the limit |
| `Ndjson.ChunkIndependence` | src/runtime/ndjson.ts:165-219 | two cuttings without a limit error give the same events, errors and accounts |
| `Ndjson.StreamBalances` | src/runtime/ndjson.ts:221-251 | one name and argument value for each id, bytes summed once an id and within the cap |
| `Ndjson.SameIdSameCall` | src/runtime/ndjson.ts:231-240 | two calls put out under one id are equal |
| `Presence.PresenceGate.Start` | src/runtime/presence.ts:40-45 | a new task with a whole minute, whatever was before |
| `Presence.PresenceGate.Arm` | src/runtime/presence.ts:47-52 | deadline and timer from the time left, unless paused or prompted |
| `Presence.PresenceGate.Check` | src/runtime/presence.ts:54-60 | issues the prompt once it is due |
| `Presence.PresenceGate.Stop` | src/runtime/presence.ts:123-131 | forgets task, prompt and pauses |
| `Presence.PresenceGate.Acknowledge` | src/runtime/presence.ts:62-77 | takes exactly the pending prompt's acknowledgement after 250 ms, and rearms |
| `Presence.PresenceGate.Pause` | src/runtime/presence.ts:80-86 | the first of nested pauses keeps the time left at its second clock reading |
| `Presence.PresenceGate.Resume` | src/runtime/presence.ts:88-90 | the last resume rearms with the time left |
| `Presence.PresenceGate.BoundaryTurn` | src/runtime/presence.ts:92-117 | one turn of the boundary's loop: pass, refuse or wait |
| `Presence.RunAgrees` | src/runtime/presence.ts:40-131 | in every run deadline, remainder and pending prompt agree with a stopwatch of un-paused time |
| `Presence.PendingExactly` | src/runtime/presence.ts:54-60 | a prompt is pending exactly when un-paused time since start or acknowledgement has reached 60,000 ms, unless it did so between the two readings of a pause that holds |
| `Presence.PendingWhenReadingsAgree` | src/runtime/presence.ts:54-60 | and without exception when the readings of each call agree |
| `Presence.PauseHides` | src/runtime/presence.ts:80-86 | every pause whose readings lie on both sides of the deadline hides the prompt |
| `Presence.TimerSetForTheMoment` | src/runtime/presence.ts:47-52 | the timer is set exactly when a task runs un-paused with no prompt, for the moment the minute is over, or was |
| `Presence.NobodyForgotten` | src/runtime/presence.ts:92-131 | in every run of events and boundary calls a call waits only while a prompt of its own task is pending, so no wake-up is missed |
| `Presence.GateOfEvents` | src/runtime/presence.ts:35-38 | the gate behind the boundary calls is the gate of their checks and the other events |
| `Presence.CallsPassExactly` | src/runtime/presence.ts:92-117 | a call passes exactly when no prompt is due, its signal is not aborted and, after a wake-up, the task is still its own; it waits exactly when a prompt is due and can be shown |
| `Presence.StepAgrees` | src/runtime/presence.ts:40-131 | every call keeps the gate in agreement with the stopwatch |
| `Presence.PauseSuspends` | src/runtime/presence.ts:79-90 | a pause moves the deadline by its own length; one that passed meanwhile is due at the resume |
| `WorkspaceFiles.Workspace.Replace` | src/runtime/workspace-broker.ts:72-83 | compare-and-swap write: whole effect or none |
| `WorkspaceFiles.Workspace.Delete` | src/runtime/workspace-broker.ts:85-89 | compare-and-swap delete: whole effect or none |
| `WorkspaceFiles.Workspace.IsMissing` | src/runtime/workspace-broker.ts:60-64 | the inspection of a path that is to be missing, which may fail as well |
| `WorkspaceListing.PathList.WalkDirectory` | native/workspace-broker/src/broker_posix.c:407-467 | the recursive walk scans the entries in preorder and stops at the limit |
| `WorkspaceListing.PathList.AppendPath` | native/workspace-broker/src/broker_posix.c:386-405 | a path is added unless the list is full |
| `WorkspaceListing.ListingIs` | native/workspace-broker/src/broker_posix.c:503-528 | a listing is the files among the first entries of the walk, marked as cut exactly when there are more |
| `WorkspaceListing.CompleteExactly` | native/workspace-broker/src/broker_posix.c:416-423 | it is complete exactly when no file is behind the entries scanned |
| `WorkspaceListing.SmallListsFew` | native/workspace-broker/src/broker_posix.c:416-423 | of directories with at most two files, at most two thirds of the entries scanned are files |
| `WorkspaceListing.EmptyFoldersHide` | native/workspace-broker/src/broker_posix.c:416-423 | as many empty directories as may be scanned hide every file behind them |
| `StructuredFiles.SumSizes` | src/runtime/structured-files.ts:202-206 | the size loop over what is listed, which stops once over the limit |
| `StructuredFiles.RecoveryUsage` | src/runtime/structured-files.ts:185-208 | the listing of 101 entries and its sum, as they are, cut or not |
| `StructuredFiles.StructuredFileOperation.VerifyTarget` | src/runtime/structured-files.ts:125-142 | one target is compared with its reviewed state, between two awaits |
| `StructuredFiles.StructuredFileOperation.LocateSource` | src/runtime/workspace.ts:190-193 | the source must exist when it is looked up |
| `StructuredFiles.StructuredFileOperation.SnapshotSource` | src/runtime/structured-files.ts:68-94 | what the snapshot finds, a file that went missing included |
| `StructuredFiles.StructuredFileOperation.ReadSource` | src/runtime/structured-files.ts:291-305 | the source is read again; a copy is made at once, else the vault is counted |
| `StructuredFiles.StructuredFileOperation.WriteRecord` | src/runtime/structured-files.ts:221-247 | the limits are compared with that count, and the record is written with the snapshot's hash |
| `StructuredFiles.StructuredFileOperation.Transfer` | src/runtime/structured-files.ts:306-338 | the transfer with its rollback, without another await |
| `StructuredFiles.TransferGuarded` | src/runtime/structured-files.ts:306-338 | the guarded calls and the rollback with its flags |
| `StructuredFiles.RestoreOperation.VerifyTarget` | src/runtime/structured-files.ts:400-416 | the binding with its id pattern, and one target of a restore |
| `StructuredFiles.RestoreOperation.ReadRecord` | src/runtime/structured-files.ts:417-421 | the record is read again, compared with nothing |
| `StructuredFiles.RestoreOperation.PutBack` | src/runtime/structured-files.ts:425-435 | the payload is compared with that record and put back in three calls |
| `StructuredFiles.NothingLost` | src/runtime/structured-files.ts:305-338 | whatever files a step finds and whatever fails, after each call the source is as found or safe in the vault, and no other path has changed |
| `StructuredFiles.FailureRestoresAll` | src/runtime/structured-files.ts:317-338 | a failed transfer whose rollback calls succeed leaves the files as found, without its record |
| `StructuredFiles.TransferExactly` | src/runtime/structured-files.ts:306-316 | a transfer that is done did exactly its job; without faults it is done exactly when it can be |
| `StructuredFiles.DoneExactly` | src/runtime/structured-files.ts:265-346 | the same for a whole call, with arbitrary changes by others between its steps |
| `StructuredFiles.ReviewedExactly` | src/runtime/structured-files.ts:281-291 | a finished call acted on the reviewed bytes exactly when the source was the same at its check and when it was read |
| `StructuredFiles.RestorableExactly` | src/runtime/structured-files.ts:368-371 | its payload can be restored exactly when the source was the same at snapshot and reading, and otherwise never as long as record and payload stay |
| `StructuredFiles.DoneWithAny` | src/runtime/structured-files.ts:281-291 | for any three contents a finished delete whose source held them at check, snapshot and reading |
| `StructuredFiles.RestoreLosesNothing` | src/runtime/structured-files.ts:432-435 | after every call of a restore the payload is in the vault or at the original path |
| `StructuredFiles.RestoreUndoes` | src/runtime/structured-files.ts:416-442 | restoring a finished delete gives back the files its transfer found, without its record; after a move the destination stays too |
| `StructuredFiles.RestoreReviewedExactly` | src/runtime/structured-files.ts:416-435 | a finished restore went by the reviewed record exactly when the record was the same at its check and when it was read, and then put back the reviewed payload at the reviewed target |
| `RecoveryVault.ListedExactly` | src/runtime/structured-files.ts:198 | the listing holds vault files, each once, all of them unless directories and files are over 101, which is when the dropped flag is set |
| `RecoveryVault.SummedExactly` | src/runtime/structured-files.ts:202-206 | the sum is the size of what is listed, or over the limit as that is |
| `RecoveryVault.UsageExactly` | src/runtime/structured-files.ts:185-208 | files and bytes are counted right, in every order of the walk, when directories and files are at most 101 |
| `RecoveryVault.CountedInEveryOrderExactly` | src/runtime/structured-files.ts:196-207 | the files are counted right in every order exactly then, or when there are none |
| `VaultRuns.FewListed` | src/runtime/structured-files.ts:196-207 | with at most a record and a payload for an operation, at most 67 files are listed |
| `VaultRuns.RunKeepsNamed` | src/runtime/structured-files.ts:245-251 | in every interleaving with any failures, a vault file is the record or the payload of an operation that began |
| `VaultRuns.CountNeverRefuses` | src/runtime/structured-files.ts:221-229 | in every run the count refuses nothing: an operation finds no room exactly when the listed bytes and its own are over the limit |
| `VaultRuns.RunKeepsKept` | src/runtime/structured-files.ts:245-338 | without faults every interleaving keeps the vault equal to what is kept for the operations |
| `VaultRuns.VaultIsWhatIsKept` | src/runtime/structured-files.ts:245-338 | then it holds the records of operations from their writing on and the payloads of those done, until taken back or restored, and nothing else; files and bytes add up |
| `VaultRuns.ProceedAddsExactly` | src/runtime/structured-files.ts:222-224 | what each step adds to the bytes of the vault: the record, then the payload, or what its rollback takes |
| `VaultRuns.OverrunAtMostRecord` | src/runtime/structured-files.ts:222-224 | after a right and current byte sum the limit is exceeded by the record at most |
| `VaultRuns.DeletesPileUp` | src/runtime/structured-files.ts:221-229 | any number n of small deletes, under any ids that differ, goes through, whatever order each walks in, and leaves 2n files and all their bytes |
| `VaultRuns.PilesExist` | src/runtime/structured-files.ts:198 | there is such a series of every length |
| `DependencyApply.DependencyOperationBroker.ApplyFile` | src/runtime/dependency-operations.ts:343-365 | replace, delete or check absence of one file; each may fail |
| `DependencyApply.DependencyOperationBroker.RunTransaction` | src/runtime/dependency-operations.ts:519-535 | the apply loop with its list, and the rollback loop |
| `DependencyApply.DependencyOperationBroker.Prune` | src/runtime/dependency-operations.ts:372-377 | deletes exactly the expired proposals |
| `DependencyApply.DependencyOperationBroker.BeginApply` | src/runtime/dependency-operations.ts:493-517 | prune and the checks of the proposal, up to the wait |
| `DependencyApply.DependencyOperationBroker.VerifyTarget` | src/runtime/structured-files.ts:125-142 | one target is verified between two waits; a change ends the call |
| `DependencyApply.DependencyOperationBroker.FinishApply` | src/runtime/dependency-operations.ts:519-543 | the transaction without another wait, and the proposal consumed only on success |
| `DependencyApply.DependencyOperationBroker.StorePreview` | src/runtime/dependency-operations.ts:447-487 | the end of a preview under a fresh id |
| `DependencyApply.AllOrNothing` | src/runtime/dependency-operations.ts:519-535 | applied means all changes made from what was previewed; failed with a good rollback means none, absent files included |
| `DependencyApply.AppliesExactly` | src/runtime/dependency-operations.ts:519-535 | without faults it applies exactly when every file is as previewed |
| `DependencyApply.NeverInBetween` | src/runtime/dependency-operations.ts:519-535 | after every call each file is old or new, and no other file is touched |
| `DependencyApply.AppliedOnce` | src/runtime/dependency-operations.ts:493-543 | of the class alone: a proposal applied while no other call for it waits is refused in every later run, and never applied again |
| `DependencyApply.AppliedAgainExactly` | src/runtime/dependency-operations.ts:508-536 | of the class alone, which its caller's queue is for: an applied proposal could be applied again exactly if another call for it waited |
| `DependencyApply.HeldOff` | src/runtime/dependency-operations.ts:343-365 | of the class alone: no such call applies it again in any run in which nothing else changes the package file back |
| `DependencyApply.RunKeepsInv` | src/runtime/dependency-operations.ts:493-543 | every run of interleaved calls keeps used, waiting, open and applied proposals apart |
| `DependencyApply.FailedStays` | src/runtime/dependency-operations.ts:525-536 | a failed attempt keeps the proposal |
| `OperationQueue.OperationBroker.Submit` | src/main/operation-broker.ts:20-25 | a call takes over the promise of the one before and leaves its own |
| `OperationQueue.OperationBroker.Start` | src/main/operation-broker.ts:26-28 | behind that promise a preview or an apply is admitted, or refused and over at once |
| `OperationQueue.OperationBroker.FinishPreview` | src/main/operation-broker.ts:46-50 | a preview ends with its proposal stored and its promise resolved |
| `OperationQueue.OperationBroker.CheckTarget` | src/main/operation-broker.ts:51-53 | a target is verified; a change ends the call |
| `OperationQueue.OperationBroker.FinishApply` | src/main/operation-broker.ts:51-53 | the transaction, and the promise resolved whether it succeeds or not |
| `OperationQueue.OneAtATime` | src/main/operation-broker.ts:20-32 | in every run calls end in the order of submission and never two run; a call may start exactly when it is next in line and nothing runs |
| `OperationQueue.AppliedAtMostOnce` | src/main/operation-broker.ts:51-53 | in every run of previews, applies, processes and outside writes, with any failures, a proposal is applied at most once, and then neither open nor waited for |
| `OperationQueue.RefusedAfterwards` | src/runtime/dependency-operations.ts:507-517 | every later call for it is refused as it starts, without effect |
| `OperationQueue.PreviewsBounded` | src/runtime/dependency-operations.ts:383-386 | never more than 16 proposals are open, though a preview counts them long before it adds its own |
| `OperationQueue.RunKeepsInv` | src/main/operation-broker.ts:20-32 | every run keeps the line of promises and the proposals of waiting calls unapplied |
| `JsonText.PrintedUnique` | src/runtime/operation-manifest.ts:15-16 | printed JSON tells the value and where it ends, escapes included |
| `JsonText.PrintedExactly` | src/runtime/operation-manifest.ts:15-16 | two values print the same exactly when they are the same |
| `Canonical.SortThenMap` | src/runtime/operation-manifest.ts:8-12 | sorting before or after the recursion is the same |
| `Canonical.CanonicalExactly` | src/runtime/operation-manifest.ts:5-13 | equal canonical forms exactly when the trees differ only in key order |
| `Canonical.CanonicalizeIdempotent` | src/shared/automation-protocol.ts:115-123 | canonicalizing twice is canonicalizing once |
| `Canonical.CanonicalTextExactly` | src/shared/automation-protocol.ts:125-130 | the text that is signed or digested is the same exactly for values that differ only in key order |
| `Canonical.AcceptedForItsLifetime` | src/runtime/operation-manifest.ts:31-86 | a created manifest is accepted for its own operation and exactly its clamped lifetime |
| `Canonical.BindingExactly` | src/runtime/operation-manifest.ts:15-16 | equal bindings exactly for fields that differ only in key order |
| `Canonical.ModificationFoundExactly` | src/runtime/operation-manifest.ts:81-84 | an approved manifest with exchanged fields under its old binding stays accepted exactly when they differ in key order alone |
| `GitText.ParseTokens` | src/runtime/git-operations.ts:320-334 | the token loop reads the entries, renames with their second token, or reports a malformed listing |
| `GitText.CaptureStatus` | src/runtime/git-operations.ts:335-336 | the first 2,000 entries, marked truncated exactly when entries are missing or Git's output was cut |
| `GitText.ListingReadsBack` | src/runtime/git-operations.ts:320-334 | parsing a printed listing of any length returns its entries, renames included |
| `GitText.CutListing` | src/runtime/git-operations.ts:320-335 | a cut listing gives the whole entries before the cut and a prefix of the cut one, malformed exactly after one to three characters |
| `GitText.ReadListingPrints` | src/runtime/git-operations.ts:320-334 | what a finished listing reads as can be printed and reads the same again |
| `GitText.AscendingExactly` | src/runtime/git-operations.ts:419 | the ordinals asked for, each once, ascending |
| `GitText.CollectHunks` | src/runtime/git-operations.ts:412-418 | the grouping loop partitions the lines into hunks |
| `GitText.HunksUnique` | src/runtime/git-operations.ts:412-418 | there is only one such partition |
| `GitText.CollectPatchLines` | src/runtime/git-operations.ts:429 | the header and then the selected hunks, in order |
| `GitText.SelectedHunkPatch` | src/runtime/git-operations.ts:379-440 | every refusal in the code's order, those of path and target included, and otherwise the patch |
| `GitText.SelectedLinesPatch` | src/runtime/git-operations.ts:402-440 | the selection from the lines of the diff on |
| `GitText.PatchHoldsExactly` | src/runtime/git-operations.ts:419-430 | reading the patch again gives the diff's header and exactly the hunks asked for, in the diff's order |
| `GitText.EveryHunkIsTheDiff` | src/runtime/git-operations.ts:419-430 | selecting every hunk gives the whole diff back |
| `GitText.ReviewedIsSelected` | src/runtime/git-operations.ts:443-452 | the patch rebuilt from the manifest is the selected one; other arguments are refused exactly when they spell another patch |
| `GitText.ArgumentsFitExactly` | src/runtime/git-operations.ts:519-523 | the argument list fits the manifest's schema exactly when no patch line is empty |

## Left out

- Cryptography: a SHA-256 digest is told by the text or the bytes it is taken of (or is an injective function), a signature check is a flag of the request.
- Zod schemas: only the bounds the model needs; `JSON.parse` with the event schema is a function parameter of the stream parser.
- UTF-8 decoding: the parsers start from decoded text. A character cut in half at an output limit is not modelled.
- Text positions: a character is a Unicode scalar value, where JavaScript counts UTF-16 units; key order of astral characters follows scalar values.
- Integer-like object keys, non-finite numbers and `undefined` in canonical forms. A JSON number is told by its numeral; dates are printed and parsed by functions given as parameters.
- Token estimates and summary texts: estimates are given numbers, a summary is told by the messages it was made from, and any set of model requests may fail. Of the messages it goes through the fallback keeps the texts of user messages, failures, patches and plans; which ones is left out, and so are the durable anchors beside them.
- `SupervisorLeases.LeaseReturnedOnceAfterExit`: turn ids are fresh, as the program makes them.
- `SupervisorLeases.RuntimeSupervisor.Start`: the lookups, policy and path resolution before the lease, and the messages to the child, are left out.
- `Journal.AppDatabase.AppendEvent`: SQLite transactions are taken as given; a call either commits or leaves no trace. Ids are a counter.
- `Journal.EveryRunInOrder`: deleting threads, migrations and imported sessions are left out.
- `StructuredFiles.StructuredFileOperation.VerifyTarget`: the manifest's own checks are those of `Canonical.Assert`; files only, no directories; canonical-path checks are left out, and reads do not fail.
- `StructuredFiles.NothingLost`: others change files while a call is suspended at an await, not between two native calls of one stretch.
- `StructuredFiles.RestoreOperation.ReadRecord`: the recovery record is a datatype with a length, not JSON text.
- `StructuredFiles.RecoveryUsage`: the sizes are summed in the order of the walk, where the listing is sorted first; by `RecoveryVault.SummedExactly` only a sum over the limit depends on the order.
- `VaultRuns.VaultIsWhatIsKept`: operation ids are fresh, as the program makes them, and only the program writes to the vault.
- `ForcedCompaction.RenderedHeaded`: the library's own code. It renders a summary, and one that an earlier session left at the start of the history, as one message of the user, and passes the other messages on as they are; any text of that message is covered.
- `ForcedCompaction.NothingIsMissing`: a retry follows its request directly. Retries of the requests for a summary are not modelled: their context is one message, which is never compacted.
- `WorkspaceListing.PathList.WalkDirectory`: an entry that cannot be opened, other than a missing one or a link, fails the whole listing and with it the operation; such failures, and the flag for links and special files, which no caller here reads, are left out.
- `DependencyApply.DependencyOperationBroker.StorePreview`: how a preview is made in its sandbox is left out.
- `GitText.SelectedHunkPatch`: the Git commands are left out; whether the target is a file and whether the diff failed or was truncated are flags.
- `GitText.CaptureStatus`: the content hash taken of each listed file is left out.
- Pairing requests, the export cursor and the imported-session parent walk: small checks beside the properties above.
- Device enrolment, command and network policy, redaction, guidance discovery, the model catalogue, Electron, preload, renderer views and build configuration: user interface, input and output, or one-branch checks.
