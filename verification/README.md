# Trapeze: a verified model of the agent core

Trapeze runs language-model agents on a server: clients attach to workspaces, send prompts,
cancel them, and read the answers from events and from a message store. This project models
the parts of that server whose correctness depends on order and interleaving, and proves what
they promise.

The model has two layers.

* **Code in place.** What the program changes in place is a class here, with the program's
  fields, and each lock-held section is a method (`SessionAgent`, `AcceptedRun`,
  `PendingState`, `Workspace`, `Backend`, `LiveMessage`, `RunStream`, `RunCompleteMarker`,
  `Coalescer`). Every method states its whole new state through a function on values.
* **Runs.** Three systems of goroutines (`Dispatch`, `Store`, `Workspaces`) take those same
  functions as their steps, one step a lock-held section, in any order, for ever. A `Run` is any
  list of states joined by steps; a step that is not enabled changes nothing. The theorems are
  about every state of every run.

| files | subject |
|---|---|
| `SessionState`, `SessionAgent`, `Dispatch*`, `MarkExamples`, `RunLifecycle` | accepting, cancelling, queueing, handing off and ending prompts |
| `Pending`, `Store*` | the debounced write-behind message store |
| `Claims`, `Backend`, `Workspace*` | client claims, the workspace registry, teardown |
| `Content`, `Streaming`, `StreamTheorems`, `StreamDetails` | the streamed assistant message and error cleanup |
| `History`, `HistoryContent`, `HistoryTheorems`, `MediaTheorems`, `AdjacencyTheorems` | the prompt history: what it says, repair, summary cut, media workaround, where results stand |
| `RunStream`, `RunStreamTheorems` | the stdout cursor of `trapeze run` |
| `Ordering`, `Jobs`, `JobsTheorems`, `JobsFields` | the job journal and the channel snapshot |

## Where the code keeps less than it promises

The model follows the code, not its comments. For each of these there is an input that shows it
and the exact condition under which it happens.

* A prompt with a RunID is said to get exactly one terminal event whichever way its turn ends.
  An error between the dispatch section and the deferred publish gives none, unless it is a
  non-cancel error of the run that `runAgent` itself started. Input:
  `HandedOffPromptCanBeLost`. Condition: `LostExactlyBy`.
* A turn that ends in an error does not look at the queue. Input: `QueuedPromptCanBeStranded`.
  Condition: a session stays looked after until an error ends the only turn that keeps it busy
  or the only goroutine that would take its queue, and no other step leaves it unattended
  (`UnwatchedExactlyBy`, `WatchedUnlessAbandoned`, `LeftByAbandoning`). A prompt left behind
  waits for a drain, handoff, cancel or clearing of its session (`WaitsInQueue`).
* Closing the last reservation of a session is said to leave no cancel mark. `Cancel` records
  the mark after it has released `acceptedMu`, and a reservation given back in between (a refused
  send, or `runAgent` returning) leaves one behind. Input: `MarkCanStay`. Condition:
  `StepNoStaleMark`, with `OvertakingLeavesMark` for what follows. Such a mark covers no later
  reservation, but it takes in-process prompts, which carry no accept sequence, from the queue
  at any later drain or handoff (`UntrackedFallToAnyMark`, and `StaleMarkTakesALaterPrompt` for a
  run).
* The journal comparator subtracts two 64-bit integers. Input: `WrappedSeqMisleads`. Conditions:
  every order of the lines gives a rising journal exactly when all numbers differ by less than
  2^63 (`RisesExactlyWhenClose`), and the order of the lines does not show exactly when the
  comparator strictly orders the records (`JournalIgnoresOrder`).
* The repair of the history is said to put a result right after every call. It makes the IDs of
  calls and results the same set, but a result that is stored elsewhere stays there, and a call
  that reuses an answered ID gets none of its own. Inputs: `ResultCanStayApart`, `ReusedIDIsLeftOpen`.
  Condition: `AdjacentExactlyWhenWellPlaced`.
* The media workaround puts its user message between a result and the next one, so a call can be
  parted from its result. Input: `MediaCanPartACallFromItsResult`. Condition:
  `WorkaroundAdjacency`.

## Model

| member | source | states |
|---|---|---|
| SessionAgents.SessionAgent.BeginAccepted | internal/agent/agent.go:286-293 | the count of the session and the generator both go up by one, and the new open handle carries the new generator value |
| SessionAgents.SessionAgent.EndAccepted | internal/agent/agent.go:308-318 | the count goes down, and at zero both the count and the cancel mark of the session are gone |
| SessionAgents.AcceptedRun.Close | internal/agent/agent.go:264-272 | the first Close releases the reservation, any later one changes nothing |
| SessionAgents.SessionAgent.EnqueueCall | internal/agent/agent.go:344-360 | the call goes last in its queue with its accept sequence kept and its handle and hook stripped |
| SessionAgents.SessionAgent.Dispatch | internal/agent/agent.go:565-623 | the dispatch section takes the one branch the mark and the busy flag call for, and in every branch the reservation is closed, released if it was still open |
| SessionAgents.SessionAgent.DrainQueueForStep | internal/agent/agent.go:380-405 | every uncovered call without a RunID is in the fold and no other, every covered one is dropped and told, and what stays queued is uncovered and waited for; order kept |
| SessionState.DrainSplitsQueue | internal/agent/agent.go:380-405 | keep, fold and drop partition the queue in order: no call lost, doubled or moved |
| SessionState.DrainCounts | internal/agent/agent.go:380-405 | for every RunID, kept plus dropped is queued: a waiting RunID is never folded away |
| SessionState.DrainDecides | internal/agent/agent.go:380-405 | each queued call, as often as it is queued, goes where the mark and its RunID send it: covered ones are dropped, uncovered ones with a RunID stay, uncovered ones without are folded |
| DispatchEffects.DrainTakesFollowUps | internal/agent/agent.go:380-405 | after a streaming step a call is queued if and only if it was, somebody waits for it and no cancel covers it |
| DispatchEffects.NoFollowUpAfterDrain | internal/agent/agent.go:380-405 | in every run no call without a RunID is left in the queue of the session right after a streaming step |
| SessionState.DroppedCallsAreTold | internal/agent/agent.go:416-443 | each dropped call that is waited for and has no hook is told once, as cancelled, under its own IDs and in order; the others nothing |
| SessionAgents.SessionAgent.PublishRunComplete | internal/agent/agent.go:520-529 | the event goes to the hook if there is one, else to the broker, never to both |
| SessionAgents.SessionAgent.PublishCanceledQueueDrops | internal/agent/agent.go:416-443 | one cancelled event for each dropped call that somebody waits for, in queue order |
| SessionAgents.SessionAgent.ClearQueueAndNotify | internal/agent/agent.go:445-455 | the queue is gone and each waiter in it has had its cancelled event |
| SessionAgents.SessionAgent.Cancel | internal/agent/agent.go:1823-1877 | both sections of Cancel together: the mark rises to the generator only if a reservation is open, the queue is dropped and its waiters told |
| SessionAgents.SessionAgent.FilterCovered | internal/agent/agent.go:1186-1203 | the handoff keeps exactly the uncovered calls and drops exactly those a drain would drop |
| SessionAgents.SessionAgent.Handoff | internal/agent/agent.go:1184-1252 | the head of the uncovered queue is taken under a fresh reservation, or the session is left idle; says whether the finished turn still owes its own event |
| SessionState.HandoffCounts | internal/agent/agent.go:1186-1210 | for every RunID, what the handoff leaves plus what it drops is what was queued |
| DispatchInvariant.RunInv | internal/agent/agent.go:547-1272 | every reachable state satisfies the protocol invariant: well-formed goroutines, queues above their marks, exact counts, conserved RunIDs |
| DispatchEffects.GateDecides | internal/backend/agent.go:46-58 | a closing workspace refuses the prompt, gives its reservation back and takes no ticket; an open one takes one ticket and goes on |
| DispatchEffects.EnterDecides | internal/agent/agent.go:565-623 | in every branch the reservation is closed: at or below the mark the call ends, told cancelled and returning what persisting the turn returned; else to a busy session it goes last in the queue under its own number; else it becomes active |
| DispatchEffects.EnterLocalDecides | internal/agent/agent.go:625-637 | an in-process call to a busy session goes last in the queue untracked and hookless, else it enters and changes nothing yet |
| DispatchEffects.CancelEmptiesQueue | internal/agent/agent.go:445-455 | a cancel or a clearing leaves nothing queued for the session |
| DispatchEffects.HandoffEnds | internal/agent/agent.go:1211-1227 | with no uncovered call left the turn ends without error, tells its own event, cancelled exactly if its context is, and leaves no queue, and no mark unless a reservation is open |
| DispatchEffects.HandoffTakesOldest | internal/agent/agent.go:1228-1272 | otherwise the oldest uncovered call runs next under a new number, and what is uncovered behind it stays queued in order |
| DispatchEffects.HandoffTellsOwn | internal/agent/agent.go:1242-1271 | the finished turn tells its own event at such a handoff if and only if it is waited for and its RunID is not queued to run on |
| DispatchEffects.StreamErrorTells | internal/agent/agent.go:740-772 | a turn that ends in an error tells so to its hook or else the broker, cancelled exactly if the error is a cancel, and returns that error |
| DispatchEffects.EarlyErrorIsReturned | internal/agent/agent.go:638-734 | an error before that point is returned and tells nothing |
| DispatchEffects.ReturnTells | internal/agent/coordinator.go:304-315 | on return the last event the hook kept is published, else for a failed dispatched run one failure under its own RunID, else nothing |
| DispatchEffects.AcceptedPromptStays | internal/agent/agent.go:380-405 | in every run a queued prompt that was accepted stays queued until a handoff, cancel or clearing of its session, whatever drains come |
| DispatchEffects.BusyFlagIsCleared | internal/agent/agent.go:621-627 | in every run, whatever failed, a session that looks busy has a goroutine that will still clear the flag, and none looks busy once all goroutines have ended |
| DispatchTheorems.RunIDConserved | internal/agent/agent.go:565-637 | at every moment of every run an accepted RunID is in exactly one place and there once: with a goroutine, queued, published, refused or lost |
| DispatchTheorems.HeldByExactlyOne | internal/agent/agent.go:740-772 | a RunID that is with a goroutine is with exactly one, and then neither queued nor published |
| DispatchTheorems.LostExactlyBy | internal/backend/agent.go:85-120 | a RunID is lost if and only if some step was an error return before the deferred publish that runAgent does not make up for |
| DispatchTheorems.QuiescentAccount | internal/agent/agent.go:1184-1272 | when all goroutines have ended no reservation and no ticket is out, and a prompt has had its one terminal event if and only if it was not refused, not lost and is not still queued |
| DispatchTending.UnwatchedExactlyBy | internal/agent/agent.go:1131-1136 | from a state in which the session is looked after, the next one is not if and only if the step is an error of the only turn that keeps it busy or of the only goroutine that would take its queue |
| DispatchTending.WatchedUnlessAbandoned | internal/agent/agent.go:1159-1252 | until such a step a session that looks busy has a turn under way, and a queue with a prompt has a goroutine that will come to its handoff |
| DispatchTending.QuiescentUnlessAbandoned | internal/agent/agent.go:1184-1272 | without such a step, when all goroutines have ended the queue is empty, and a prompt has had its one terminal event if and only if it was not refused and not lost |
| DispatchTending.LeftByAbandoning | internal/agent/agent.go:1131-1136 | a queue that is not empty when all goroutines have ended was left by such a step |
| DispatchTending.WaitsInQueue | internal/agent/agent.go:1186-1252 | a queued prompt leaves its queue by a drain, handoff, cancel or clearing of its own session only |
| DispatchTheorems.CancelIsExact | internal/agent/agent.go:474-480 | a reservation entering Run is cancelled on entry if and only if some Cancel of its session took its snapshot while the reservation was open |
| DispatchTheorems.HitMeansSeen | internal/agent/agent.go:1863-1871 | the history variable used for that is true exactly when such a Cancel step exists in the run |
| DispatchTheorems.OneCancelCoversSiblings | internal/agent/agent.go:1850-1871 | after one Cancel every open reservation of the session will be cancelled on entry and the next one accepted will not |
| DispatchTheorems.NumbersAreNew | internal/agent/agent.go:286-293 | no goroutine ever holds a reservation number that was not yet given out |
| DispatchTheorems.FiltersSpareAcceptedPrompts | internal/agent/agent.go:1186-1210 | the mark is at most the generator, every tracked queued call is above the mark, so neither filter ever drops one |
| DispatchTheorems.CountsReservations | internal/agent/agent.go:253-318 | acceptedRuns is the number of unclosed handles of the session in every state, and has an entry exactly when there is one |
| DispatchTheorems.MarkGoneWithLastReservation | internal/agent/agent.go:296-318 | as long as no reservation is given back between the two sections of a Cancel, a mark exists only while a reservation is open |
| DispatchTheorems.OvertakingLeavesMark | internal/agent/agent.go:1863-1871 | a Cancel overtaken there records its mark whenever its second section comes, and the mark is then without a reservation exactly if none is open at that moment |
| DispatchSteps.StepNoStaleMark | internal/agent/agent.go:308-318 | from a state without a stale mark the next state has one if and only if the step gives the last reservation back between the two sections of a Cancel |
| DispatchTheorems.UntrackedFallToAnyMark | internal/agent/agent.go:474-480 | a queued call without an accept sequence is dropped by a drain or handoff if and only if the session has a mark, however old |
| MarkExamples.MarkCanStay | internal/agent/agent.go:1863-1871 | a run in which a reservation is given back inside a Cancel, and the mark that is left |
| MarkExamples.StaleMarkTakesALaterPrompt | internal/agent/agent.go:380-405 | in it an in-process prompt, queued with no Cancel since, is dropped as cancelled by that mark |
| DispatchTheorems.GateStaysShut | internal/backend/backend.go:173-188 | once a closing workspace has no ticket out, none is ever taken again and no dispatched run is live |
| DispatchTheorems.NoTicketOut | internal/backend/agent.go:46-58 | the wait group is at zero exactly when no goroutine is between the gate and the return of runAgent |
| DispatchExamples.HandedOffPromptCanBeLost | internal/agent/agent.go:1254-1272 | a run of eleven steps in which a handed-off prompt fails early and never gets a terminal event |
| DispatchExamples.QueuedPromptCanBeStranded | internal/agent/agent.go:1131-1136 | a run in which a turn fails and the prompt queued behind it is left there with nobody to run it |
| RunLifecycle.Coalescer.Hear | internal/agent/coordinator.go:253-260 | of all events that an attempt reports only the last is kept |
| RunLifecycle.CoordinatorRun | internal/agent/coordinator.go:204-315 | one attempt or two, exactly the last event reported is published, and the marker is set if and only if there was one |
| RunLifecycle.RunAgent | internal/backend/agent.go:85-120 | on return the waiter has been sent at most one terminal event however many attempts there were, none exactly when no attempt told of one and the run did not fail or nobody waits; reservation and ticket are given back |
| RunLifecycle.ReturnSendsTerminal | internal/agent/coordinator.go:304-315 | the Return step of the goroutine system publishes what RunAgent publishes |
| RunLifecycle.OneVoice | internal/agent/coordinator.go:204-315 | the last event of the second attempt is sent if there was one and it spoke, else the last of the first, and only when neither spoke a failure for a run that failed and is waited for |
| Pending.PendingState.Accept | internal/message/message.go:217-273 | the newest state is buffered; flushed at once exactly for structural changes or without debouncing, else one timer runs |
| Pending.PendingState.Look | internal/message/message.go:315-356 | a flusher finds the buffer busy, clean, or takes its newest state out |
| Pending.PendingState.EndFlush | internal/message/message.go:360-373 | after the write: the new baseline on success, dirty again on failure |
| Pending.PendingState.Terminal | internal/message/message.go:418-446 | the loop decides exactly whether the structure changed |
| StoreInvariant.RunInv | internal/message/message.go:217-389 | in every reachable state, for every ID: not dirty and not flushing means the row is the newest update; writes are genuine, rising and rightly marked; every promise is kept, failed or still ahead |
| StoreEffects.UpdateDecides | internal/message/message.go:217-273 | an update is buffered as the newest; its caller goes on to flush exactly if there is no debouncing or the structure changed, and otherwise a timer runs unless a flush is under way |
| StoreEffects.TimerLostOnlyBy | internal/message/message.go:217-389 | a waiting buffer loses its timer only to an update whose caller flushes, or at the end of a flush that failed or was overtaken |
| StoreEffects.TimerStoresNewest | internal/message/message.go:315-373 | a timer that fires on a waiting buffer, and is not interrupted, leaves the row the newest update and the buffer clean |
| StoreEffects.BusyMeansWait | internal/message/message.go:315-334 | at a busy buffer a flusher that promised stays with the ID, a timer gives up |
| StoreEffects.LookTakesNewest | internal/message/message.go:335-356 | what is taken to be written is the newest update, marked must-deliver exactly if it changed the structure of the row |
| StoreEffects.FlusherLeavesRowNewest | internal/message/message.go:324-389 | a flusher that promised is done with an ID only when at that moment the row is the newest update, or its own write failed |
| StoreEffects.EveryWriteIsPublishedOnce | internal/message/message.go:375-382 | in every run each successful write was published as often as it was made, or its caller is about to |
| StoreTheorems.FlushIsDurable | internal/message/message.go:276-278 | when Flush returns nil the row is at least as new as every Update of the ID that was complete when it was called |
| StoreTheorems.FlushAllIsDurable | internal/message/message.go:285-301 | the same of FlushAll for every ID, whatever the order of its list |
| StoreTheorems.TerminalUpdateIsDurable | internal/message/message.go:251-258 | the same of an Update that flushes, counting itself |
| StoreEffects.StructuralUpdateIsDurable | internal/message/message.go:251-258 | in every run an update that changes the structure, or is not debounced, is in the row when it returns without error |
| StoreTheorems.CleanMeansStored | internal/message/message.go:324-339 | the row is always one of the updates, and equals the newest when nothing is outstanding |
| StoreTheorems.WritesNeverReorder | internal/message/message.go:320-363 | one SQL write of an ID at a time, and each successful one strictly newer than the one before |
| StoreTheorems.FailedWriteKeepsNewest | internal/message/message.go:360-370 | a failed write leaves the newest update buffered and dirty |
| StoreTheorems.NotTerminalSameStructure | internal/message/message.go:418-446 | a change is not structural exactly when call count, finished flags, end of reasoning and the finish mark are all as before |
| StoreTheorems.LossyKeepsStructure | internal/message/message.go:375-382 | over any stretch of writes all published the lossy way the structure is that of the write before the stretch |
| StoreTheorems.PublishedWasWritten | internal/message/message.go:375-382 | what is published was written, and goes by must-deliver exactly if it changed the structure |
| Claims.ShapeKept | internal/backend/backend.go:441-574 | no section breaks "a pending hold or some streams, never both" |
| Claims.Workspace.RegisterClient | internal/backend/backend.go:499-512 | a fresh hold, unless the client has a claim |
| Claims.Workspace.AttachStream | internal/backend/backend.go:453-468 | the hold becomes a stream, or one stream more |
| Claims.Workspace.ExpireHold | internal/backend/backend.go:517-531 | the timer removes only the very claim it was started for, and only while it is a bare hold |
| Claims.Workspace.ReleaseHold | internal/backend/backend.go:533-553 | the hold goes, streams stay; teardown exactly when the last claim went |
| Claims.Workspace.DetachStream | internal/backend/backend.go:555-574 | one stream less, the claim gone with the last; teardown exactly when the last claim went |
| Claims.Workspace.TakeTicket | internal/backend/agent.go:48-55 | a ticket exactly when the workspace is not closing |
| Backends.Backend.CreateLookup | internal/backend/backend.go:250-268 | the workspace at the path is claimed if there is one; index and registry stay in bijection |
| Backends.Backend.CreateFinish | internal/backend/backend.go:326-348 | the winner of the path is registered with its claim, a loser claims the winner's; the bijection stays |
| Backends.Backend.AttachClient | internal/backend/backend.go:441-469 | a stream on a registered workspace, else nothing changes |
| Backends.Backend.Teardown | internal/backend/backend.go:587-604 | out of index and registry exactly if still unclaimed under both locks; the bijection stays |
| WorkspaceInvariant.RunInv | internal/backend/backend.go:236-612 | every reachable state satisfies the registry invariant |
| WorkspaceTheorems.LiveClaimsAreSafe | internal/backend/backend.go:587-606 | a workspace with a claim is registered and its shutdown has not begun |
| WorkspaceTheorems.GoneForGood | internal/backend/backend.go:441-451 | a workspace that is not registered never is again and never gains a client again |
| WorkspaceTheorems.RegisteredIsClaimedOrTornDown | internal/backend/backend.go:517-612 | a registered workspace without clients has a teardown pending |
| WorkspaceTheorems.TeardownTakesUnclaimed | internal/backend/backend.go:587-604 | running a teardown removes the workspace exactly if it is unclaimed |
| WorkspaceEffects.ShutDownExactlyIfUnregistered | internal/backend/backend.go:587-612 | in every run a workspace that was built is out of the registry if and only if its shutdown is pending or has been called: a teardown and a lost race both lead to it |
| WorkspaceEffects.ShutdownCallsHook | internal/backend/backend.go:606-612 | a pending shutdown calls the hook once and is then no longer pending |
| WorkspaceEffects.CreateClaims | internal/backend/backend.go:250-348 | a create ends with the client holding a claim on the workspace that is registered at the path, built or found |
| WorkspaceEffects.RequestsDo | internal/backend/backend.go:441-574 | each request does to the claim of its own client what it is for, and leaves every other claim alone |
| WorkspaceEffects.DeleteReleases | internal/backend/backend.go:485-553 | deleting gives the client's hold back and spares its streams, with a teardown to follow exactly if that was the last claim |
| WorkspaceTheorems.OneWorkspacePerPath | internal/backend/backend.go:250-268 | at most one registered workspace a path, and an index entry is never stale |
| WorkspaceTheorems.ClaimsAreHoldsOrStreams | internal/backend/backend.go:441-574 | the stream count is the attaches not yet detached; a hold has its timer still to fire |
| WorkspaceTheorems.StreamsFindTheirWorkspace | internal/backend/backend.go:474-480 | a detaching stream always finds its workspace registered and its claim there |
| WorkspaceTheorems.StaleTimersRemoveNothing | internal/backend/backend.go:517-531 | however late it fires, a timer removes no claim that was converted, released or made anew since it was started |
| WorkspaceTheorems.LateTimerIsHarmless | internal/backend/backend.go:517-523 | a timer that can do nothing now never can again, however late it fires |
| Streaming.LiveMessage.AppendContent | internal/message/content.go:236-247 | every text part grows by the delta, or one text part is added |
| Streaming.LiveMessage.AppendReasoningContent | internal/message/content.go:249-268 | the same for reasoning, whose other fields are cut to four |
| Streaming.LiveMessage.EditFirstReasoning | internal/message/content.go:270-330 | signatures, response data and the end of thinking change the first reasoning part only, in place |
| Streaming.LiveMessage.AddToolCall | internal/message/content.go:378-388 | the call replaces the first with its ID in place, or goes last |
| Streaming.LiveMessage.AddFinish | internal/message/content.go:424-433 | the first finish part goes, the new one comes last |
| Streaming.LiveMessage.On | internal/agent/agent.go:870-986 | what each stream callback does to the message |
| Streaming.LiveMessage.CleanUp | internal/agent/agent.go:1044-1136 | the message after error cleanup and the error results created, in order; a failing store write ends it with a first part of the calls dealt with, and it completes exactly when all its writes succeed |
| Streaming.HasAnswer | internal/agent/agent.go:1060-1075 | the search finds an answer exactly when a listed tool message holds one |
| StreamTheorems.StreamKeepsShape | internal/message/content.go:236-433 | after any callbacks: at most one text, one reasoning and one finish part, distinct call IDs, nothing else |
| StreamTheorems.TextIsTheDeltas | internal/agent/agent.go:897-907 | the text is the deltas in order, less one leading newline exactly when the stream opens with a delta that has one |
| StreamTheorems.ThinkingIsTheDeltas | internal/agent/agent.go:870-896 | the thinking is the reasoning deltas in order, whatever signatures and marks come between |
| StreamTheorems.CallsAreOrderedMap | internal/message/content.go:378-388 | the calls are an insertion-ordered map of the call events: first-seen order, last event of each ID |
| StreamDetails.LastCallbackDecides | internal/agent/agent.go:908-936 | the last callback about a call decides it: one that starts its input leaves it open and empty, one that completes it leaves it finished under the name and input it gives; there is one call of the ID |
| StreamDetails.CallsStandInOrder | internal/agent/agent.go:908-936 | the calls are the IDs of the call callbacks, each once, in the order of their first |
| StreamDetails.LastFinishStands | internal/agent/agent.go:948-986 | the message is finished exactly if a step finished, and carries the reason and time of the last one only |
| StreamDetails.ReasoningGrows | internal/message/content.go:249-268 | a piece of reasoning goes at the end of the thinking, or opens it at this time; signature and times stay, response data and thought signature do not |
| StreamDetails.ReasoningEndDecides | internal/agent/agent.go:877-896 | what the end of reasoning makes of each field: the end time is set once, and which of signature, thought signature and response data survive |
| StreamDetails.ReasoningEndsUnbegun | internal/agent/agent.go:877-896 | the end of reasoning that never began makes an empty ended one of a signature or thought, and nothing otherwise |
| StreamDetails.ReasoningTimes | internal/agent/agent.go:869-896 | over any stream, reasoning began at the callback that opened it and ended at the first end after it |
| StreamTheorems.CleanUpClosesEveryCall | internal/agent/agent.go:1044-1059 | after error cleanup every call is finished in its place, an open one with empty input; text, thinking, IDs and shape are kept |
| StreamTheorems.CleanUpAnswersEveryCallOnce | internal/agent/agent.go:1060-1099 | exactly one error result is created for each call without an answer, and no other |
| StreamDetails.CleanUpCallByCall | internal/agent/agent.go:1044-1059 | after error cleanup the i-th call has its ID and name, is finished, and has its input if it was finished before and an empty object otherwise |
| StreamDetails.CleanUpFinishes | internal/agent/agent.go:1100-1136 | the finish part given to error cleanup is last and the only one |
| StreamDetails.CreatedInOrder | internal/agent/agent.go:1060-1099 | the created results one by one: an error under the ID and name of an unanswered call, with the text for a cancel or a failure, in the order of the calls |
| HistoryTheorems.CleanedUpNeedsNoRepair | internal/agent/agent.go:1585-1610 | once cleanup is stored, no synthetic result is made for any call of the message |
| History.FilterFileParts | internal/agent/agent.go:1533-1542 | exactly the file parts are gone, the rest in order |
| History.FilterOrphanedToolResults | internal/agent/agent.go:1549-1576 | exactly the results with a known call remain; no message when none does |
| History.SyntheticToolResults | internal/agent/agent.go:1585-1610 | one error result for each call without a stored result, in order; no message when there is none |
| History.CollectIDs | internal/agent/agent.go:1468-1482 | the IDs of all calls of assistant messages and of all results of tool messages |
| History.OneMessage | internal/agent/agent.go:1484-1512 | what one stored message adds to the history, skips and image filter included |
| History.PreparePrompt | internal/agent/agent.go:1453-1527 | the reminder unless a sub-agent runs, then every message in order; the files are the attachments that are not text |
| HistoryContent.HistorySays | internal/message/content.go:467-575 | for every message list the history is the reminder and one piece for each stored message in order; a user message says its trimmed text and then the quoted text attachments under their heading, with the other attachments as files; an assistant message its trimmed text, reasoning and calls, followed by made-up results for calls without any; a tool message the results that have a call, each an error, sound media or text as stored |
| HistoryContent.AttachmentsGoAsFiles | internal/agent/agent.go:1516-1527 | every attachment of the new prompt that is no text goes as a file with its name, bytes and type, in order, and no text does |
| HistoryContent.FilterKeepsTheRest | internal/agent/agent.go:1533-1542 | wherever a part stands, it is dropped if it is a file and kept as it is otherwise |
| History.GetSessionMessages | internal/agent/agent.go:1612-1633 | the listed messages, cut at the summary if it is among them |
| History.WorkaroundMediaLimitations | internal/agent/agent.go:2022-2089 | identity for providers that take media in results, else message by message |
| History.ConvertMessage | internal/agent/agent.go:2034-2086 | decodable media become a placeholder in place and a file in one user message right after |
| HistoryContent.WorkaroundSays | internal/agent/agent.go:2022-2089 | on every history each message becomes its piece in order: a result with media a placeholder in its place, and after its message one of the user with the decoded bytes of each, under its result ID and media type, in order |
| HistoryTheorems.HistoryIsClosed | internal/agent/agent.go:1453-1514 | for every message list the history carries every stored call in order and names the same IDs in calls and results; where the results stand is the next rows |
| AdjacencyTheorems.AdjacentExactlyWhenWellPlaced | internal/agent/agent.go:1578-1610 | every call has its result in the tool messages directly after it if and only if each call with a stored result anywhere has one stored directly after it, passing over messages that add nothing |
| AdjacencyTheorems.ResultCanStayApart | internal/agent/agent.go:1484-1512 | a closed stored history with a user message between call and result, whose repaired history keeps them apart |
| AdjacencyTheorems.ReusedIDIsLeftOpen | internal/agent/agent.go:1585-1591 | a second call under an ID that has a result gets none of its own |
| HistoryTheorems.RepairOnlyWhenOpen | internal/agent/agent.go:1549-1610 | the stored results reach the history untouched, none dropped, none made up, if and only if the stored history is closed |
| HistoryTheorems.NoFilesWithoutImages | internal/agent/agent.go:1499-1505 | a model without images is sent no file of the history |
| HistoryTheorems.CutKeepsTheRest | internal/agent/agent.go:1618-1630 | the cut keeps the summary, as the user's, and everything after it |
| HistoryTheorems.CutHistoryIsClosed | internal/agent/agent.go:1618-1630 | after the cut only calls from after the summary are left, and each is answered |
| MediaTheorems.WorkaroundKeepsResults | internal/agent/agent.go:2022-2089 | on every history the calls and the sequence of result IDs stay, and one file is injected for each result changed |
| MediaTheorems.WorkaroundIsIdempotent | internal/agent/agent.go:2022-2089 | on a history that has been through it, it changes nothing |
| AdjacencyTheorems.WorkaroundAdjacency | internal/agent/agent.go:2034-2086 | after the workaround every call has its result directly after it if and only if before it none had to be looked for behind a result with media |
| AdjacencyTheorems.MediaCanPartACallFromItsResult | internal/agent/agent.go:2079-2085 | two calls with their results directly after them, of which the workaround parts one from its result |
| MediaTheorems.NoMediaReachesTheProvider | internal/message/content.go:541-560 | on the prompt history decoding never fails, so no result carries media afterwards |
| RunStreams.RunStream.Handle | internal/cmd/run.go:328-435 | one event: what is written, where the cursor goes, and when the run ends or fails |
| RunStreamTheorems.RunCompleteDecides | internal/cmd/run.go:378-409 | a terminal event of another run, or without a run ID of another session, changes nothing; ours fails the run exactly if it carries an error and is not cancelled, and ends it otherwise |
| RunStreamTheorems.RunCompleteShows | internal/cmd/run.go:386-409 | the end adds to stdout what was not seen of the final text, at a start less its spaces and tabs |
| RunStreamTheorems.AgentEventDecides | internal/cmd/run.go:411-433 | an agent failure fails the run exactly if it names our run ID, or names none and our session |
| RunStreamTheorems.MessageEventDecides | internal/cmd/run.go:335-377 | which message events are shown, what is written of each and where the cursor goes, and that a shorter content stops the stream |
| RunStreams.RunStream.Follow | internal/cmd/run.go:270-292 | the loop handles the events in order and stops at the first end or failure |
| RunStreamTheorems.StdoutIsTheFinalText | internal/cmd/run.go:328-409 | for any interleaving with contents that grow, stdout ends up with the final text less leading blanks only, for every message |
| RunStreamTheorems.QuietRun | internal/cmd/run.go:335-363 | until then stdout holds what was seen of each message, less leading blanks only |
| RunStreamTheorems.ForeignEventsChangeNothing | internal/cmd/run.go:335-433 | events of other sessions, runs, roles and kinds can be dropped from any run with the same output and outcome |
| RunStreamTheorems.OtherRunsDoNotShow | internal/cmd/run.go:378-384 | with a run ID, dropping the terminal events of all other runs leaves output, cursor and outcome the same |
| RunStreamTheorems.RunIDShowsOnlyTheEnd | internal/cmd/run.go:339-341 | with a run ID nothing is written before the terminal event, and then its text from the first character that is no space or tab |
| RunStreamTheorems.OnlyShrinkingStops | internal/cmd/run.go:344-350 | short of an ending or failing event the stream stops if and only if a content gets shorter |
| Jobs.ReadJournal | internal/jobs/protocol.go:149-171 | the parsed lines of this version with a job ID, stably sorted by sequence number |
| Jobs.StateFromRecords | internal/jobs/jobs.go:91-125 | the loop is the fold of the records over a running state |
| Jobs.ReadChannelStates | internal/jobs/jobs.go:131-152 | the states of all visible .jsonl files with records, in display order; nothing without a directory |
| Jobs.EqualStates | internal/jobs/jobs.go:174-184 | true exactly for snapshots equal in every field, the locations of their times included |
| JobsTheorems.ComparesSeqExactly | internal/jobs/protocol.go:169 | the comparator orders two numbers if and only if their difference fits 64 bits |
| JobsTheorems.WrappedSeqMisleads | internal/jobs/protocol.go:169 | an example: two records further apart fold to the outcome with the lower number |
| JobsTheorems.JournalIgnoresOrder | internal/jobs/protocol.go:149-171 | every order of the same lines gives the same journal if and only if the comparator strictly orders the records; the state is then the same too |
| JobsTheorems.CloseIsOrdered | internal/jobs/protocol.go:169 | distinct sequence numbers that differ by less than 2^63 are strictly ordered |
| JobsTheorems.RisesExactlyWhenClose | internal/jobs/protocol.go:169 | with distinct numbers every order of the lines gives a journal in rising order if and only if all differ by less than 2^63 |
| JobsTheorems.StateIsTheHighest | internal/jobs/jobs.go:91-125 | in a journal in rising order the state is the type of the highest-numbered terminal or message record, else running; progress and end time likewise |
| JobsFields.FieldsAreTheLatest | internal/jobs/jobs.go:91-125 | the ID is that of the first record; state, message and result come from the last of "succeeded", "failed", "cancelled", "interrupted" or "message", else running and empty; end time, source, sender and progress from the last record that bears on them, else none |
| JobsFields.StartedIsTheFirstDated | internal/jobs/jobs.go:99-115 | the start time is that of the last start, or if it tells none that of the first message after it that does |
| JobsFields.JournalHolds | internal/jobs/protocol.go:149-171 | a journal holds each line that parses, is of version 1 and names a job, as often as it stands there, and nothing else |
| JobsFields.SnapshotMembers | internal/jobs/jobs.go:131-152 | the snapshot shows the states of the journals and nothing else |
| JobsFields.JournalNames | internal/jobs/jobs.go:141-144 | exactly the visible files whose names end in .jsonl are journals |
| JobsTheorems.DisplayIsStrict | internal/jobs/jobs.go:156-170 | the display comparator is antisymmetric, zero only between equal IDs, and transitive |
| JobsTheorems.SnapshotIgnoresOrder | internal/jobs/jobs.go:131-152 | with distinct job IDs, and journals whose order does not show, the snapshot depends neither on directory order nor on line order |
| JobsTheorems.SnapshotOrder | internal/jobs/jobs.go:154-170 | running jobs first, then newest start, and no job lost |
| JobsFields.TiesGoByID | internal/jobs/jobs.go:156-170 | jobs in the same condition that started together stand in the order of their IDs, letter by letter |
| Ordering.SortedUnique | internal/jobs/jobs.go:156-170 | two sorted permutations are equal under a comparator that separates the elements, so the result does not depend on the sort |

## Left out

- RunIDConserved: has a place "lost" for prompts that end without any event, because the code has such exits; `LostExactlyBy` gives them exactly. A RunID is taken to be used for one prompt of a session only.
- MarkGoneWithLastReservation: is stated for runs in which no reservation is given back inside another goroutine's Cancel, because the code leaves a mark otherwise (`StepNoStaleMark`, `OvertakingLeavesMark`).
- StdoutIsTheFinalText: counts characters where the program counts bytes; the two agree on contents that are valid UTF-8 and grow by whole characters.
- FlushIsDurable: takes an SQL write that returned an error as not applied.
- SortedUnique: `slices.SortStableFunc` is represented by a stable insertion sort on values; in-place sorting is not captured. Under a strict order any sort gives the same result; what other orders give (`JournalIgnoresOrder`, `RisesExactlyWhenClose`, the failing halves) is that of insertion.
- The title and text of the finish part that error cleanup adds are an input.
- CoordinatorRun: both attempts of the retry after a 401 are inputs; the goroutine system `Dispatch` has one attempt for each run, since the second one enters with a closed reservation and can publish more than the model accounts for.
- The continuation after automatic summarizing, and Summarize's own queue edits: a continuation dropped by a cancel is published twice.
- In-process enqueueing and ClearQueue edit the queue outside the dispatch lock; they are taken as single steps.
- AcceptedRun.Close is one step, its compare-and-swap and its decrement together.
- "At most one active run a session" is not claimed: a deferred delete of activeRequests can erase a successor's entry, and the model keeps that.
- The accept counter does not wrap at 2^64.
- What a RunComplete carries beyond session, RunID and the cancelled flag; the agent-error notification.
- Cancelling the contexts of running requests, and the errors that this causes, are free choices of the steps.
- Timer liveness of the store is not claimed: a delta that arrives during a timer's flush stays buffered until the next Update or Flush (`TimerLostOnlyBy`). The order of published updates, and Delete racing a flush, are not modelled either.
- `service.pending` and the loop of flushOne are modelled on values, as steps of `Store`; the class covers one pendingState.
- A clientState's identity, which the code has by its address, is the number `cell`; stopping a timer is a step that may come too late.
- "The shutdown hook runs once" and "the server stops only when no workspace is left" are not claimed: teardown does not re-check registration.
- Validation of client IDs, paths and prompts, and building a workspace's parts, happen before or between the modelled sections.
- base64 itself is a parameter of the history model, as are the clock, the parsed journal lines and their time stamps.
- Provider options on parts other than reasoning, and cache control.
- Configuration, provider selection, SQL, HTTP, the terminal UI and the job watcher: easy members, or foreign code.
