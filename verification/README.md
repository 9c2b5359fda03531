# cueloop: the daemon's durable protocols, modelled and proved

cueloop's daemon keeps a review Thread and the agent that works on it alive across crashes, retries,
restarts and half-written bytes. This project models the protocols that promise this and proves what they
promise, over every run and every crash point. Where the code does less than it says, the project keeps the
code's behaviour, gives the input that shows it, and proves exactly when the promise holds.

The proofs are for Dafny 4.11: `dafny verify dfyconfig.toml` checks them all.

## How it is laid out

Each stateful component comes in three layers. A *machine* is a datatype with one function per step; a step
ends where the source saves or awaits, so a crash can fall between any two. *Theorem* files prove invariants
of one step and lift them to whole runs. A *class* has the source's own fields and loops, and each of its
methods is proved to take exactly the machine's step; its `Run` drives the object through any sequence of events
and promises what the theorems say about runs.

| files | what they model |
|---|---|
| `AgentQueue`, `AgentMachine`, `ThreadAgent`; `AgentAcceptance`, `AgentSafety`, `AgentGuards`, `AgentTheorems`, `AgentLedger`, `AgentReceipts`, `AgentHandoff`, `AgentDispatch`, `AgentComments`, `AgentTranscript`, `AgentHistory`, `AgentInputs`, `AgentOutcomes`, `AgentRuns`, `AgentFacts`, `AgentWitness`; `Receipts`, `AgentTurn`, `Transcript`, `Utf8`, `OwnerRelay` | the Thread agent: accepting prompts all or nothing and once per operation, running them one at a time, cancelling, failing, reloading, handing the Thread to another harness; its receipts, its transcript and its byte budgets; the share relay that redelivers prompts |
| `AcpDispatch`, `AcpTheorems`, `AcpOutcomes`, `AcpCalls`, `AcpRecovery`, `DurableAcp`, `Replay`, `ReplayLive`, `AgentOverAcp` | durable dispatch to an ACP harness: the dispatch checkpoint, the progress log and its replay, what the user sees after crashes, and the agent and the adapter together |
| `LogText`, `LogStore`, `LogCrash`, `LogDisk`, `LogRuns`, `LogWitness`, `ThreadStore` | the append-log store of Threads |
| `Framing`, `Wire`, `Text` | newline-delimited frames over a socket with backpressure |
| `HarnessState`, `Delivery`, `DeliverPending`, `DeliveryRuns`, `ApprovedRetry`, `RoutingOutcomes` | routing Messages to harness sessions, and the single-use approved retry |
| `Wrap` | balanced text wrapping |
| `Subscription`, `Publisher`, `DiffCapture`, `RateLimit` | the reconnecting observer, the latest-state publisher, overlapping diff captures, the token bucket |

## Where the code falls short of its promise

Each of these is proved, with the exact condition and, where it takes a run to get there, that run.

- **A rollback during a run strands it.** `prompt` undoes a refused prompt by putting a copy of the state back
  (`restoreAgentState`). A run in flight keeps a reference to its old submission object, so when it ends, the
  submission stays marked running. Whatever is marked running is what the run in flight will settle, until a
  prompt is rolled back in flight, and a step ends that if and only if it is one; which prompts are rolled back
  is told by guards a caller can check (`AnswersExactly`, `OneRunningExactly`, `RollbackStrandsTheRun`,
  `RollbackHappens`). Two submissions are then marked running if and only if a drain starts one while another
  is still marked (`TwoRunningExactly`).
- **A dispatched prompt can be rewritten.** If a handoff completes between a crash and the redispatch, its
  continuation is put in front of a prompt that already went out under the same request ID; an ACP adapter then
  refuses it as a reused ID (`OneTextPerRequest`, `RewriteConflicts`, `RewriteHappens`).
- **A switch can be lost.** A handoff that has begun but is still saved as `queued`, with the harness waiting
  for a permission, is treated as not begun; the switch is accepted and the handoff's next save overwrites it
  (`RacingSwitchIsLost`, `RaceHappens`). The window lies between the connection's answer and the save of the
  summary prompt (`packages/daemon/src/thread-agent.ts:403-421`), a few microtasks, so a switch that comes over
  a socket is unlikely to fall into it.
- **A comment identity can be submitted twice**: a mirrored input whose operation ID equals the comment ID of a
  submission in the queue is queued without the check; over whole runs, exactly then
  (`NoCommentIsSubmittedTwice`, `CommentIsSubmittedTwice`).
- **Losing exactly a log line's newline loses two records.** A record without its newline reads as valid and not
  torn, so the next append fuses with it and the next restart reads neither (`AppendIsReadExactly`,
  `UpsertExactly`, `FusionLosesBoth`, `TwoRecordsAreLost`); no other crash point does this
  (`OnlyTheLostNewlineFuses`).
- **Replay and live can disagree on a first turn.** They group its events into different messages exactly when
  unnamed events come beside an explicit id `answer` or `answer-<turn>` (`GroupingExactly`,
  `AnswerMergesInReplay`, `AnswerMergesLive`). When they do not, a replay restores an uninterrupted turn if and
  only if the turn continues no message: live, text is added to a message that an earlier turn left open under
  the same explicit id, while the replay replaces it (`ReplayEqualsLive`, `ContinuedMessagesDiffer`). A retry
  does neither (`RetriesContinueNothing`). With unclear names a replay may still restore the turn; exactly when,
  says `ReplayEqualsLiveExactly`.
- **A reattached turn can come back with its messages in another order.** Every text is restored as before, over
  any run (`ReplaysRestoreTheTexts`), but the order only if what survived of the live stream introduced its
  messages in the log's order and skipped none (`ReplaysRestoreTheTurn`); a crash that forgets a committed event
  before it is published is what skips one (`ReplayRestoresTheTurn`, `ReattachedTurnsMayReorder`).
- **A socket chunk that ends inside a character corrupts the text**, because both ends decode chunks one by one;
  exactly then (`CutsExactly`).
- **A stale diff capture overwrites a revision** submitted while it was under way, because submitting a revision
  does not start a new generation (`RevisionsAreOverwrittenExactly`, `StaleCaptureWins`). Over whole runs nothing
  older replaces a revision unless one is submitted over the newest capture (`RevisionsSurvive`).
- **The transcript limits are passed by two bytes**: a cut character decodes to a three-byte replacement
  (`EveryRunIsBounded`, `MessageBoundIsReached`).
- **A request with both a comment and a retry** queues the comment while its receipt names the retried
  submission (`ReceiptNamesTheBatchExactly`); if nothing of that name is ever queued, the receipt is never
  settled (`StrayRetriesNeverSettle`).

## Model

| member | source | states |
|---|---|---|
| Utf8.DecodeOfCutEncoding | packages/daemon/src/thread-agent.ts:1041-1050 | cutting a text's UTF-8 bytes anywhere and decoding leniently (RFC 3629, section 3) keeps the whole characters that fit and turns a split one into a single U+FFFD |
| Utf8.RoundTrip | packages/daemon/src/thread-agent.ts:1041-1050 | every text survives encoding and decoding |
| Transcript.WrittenIsTheByteCut | packages/daemon/src/thread-agent.ts:1031-1050 | the buffer slicing of append and replace is the character cut the bounds are proved about |
| Transcript.EveryRunIsBounded | packages/daemon/src/thread-agent.ts:475-484 | over any run of inputs, appends, replaces and finalizations no message passes 320,002 bytes and the transcript never passes 2 MiB + 2 |
| Transcript.MessageBoundIsReached | packages/daemon/src/thread-agent.ts:1035-1050 | both bounds are reached, so the documented limits are passed by two bytes |
| Transcript.WithinBudgetNothingIsCut | packages/daemon/src/thread-agent.ts:1031-1050 | while a text fits both budgets an append appends and a replace replaces |
| Transcript.UsedBytes | packages/daemon/src/thread-agent.ts:478-481 | the loop sums the transcript's bytes |
| Transcript.FindMessage | packages/daemon/src/thread-agent.ts:1015 | the loop finds the first message with an identity |
| Transcript.FinalizeLoop | packages/daemon/src/thread-agent.ts:1090-1104 | exactly the agent messages of this turn, and of this attempt when it is a retry, become complete |
| AgentTranscript.RunsStayBounded | packages/daemon/src/thread-agent.ts:458-502 | the byte bounds hold in memory and on disk over every run of the whole agent, crashes and handoffs included |
| AgentTurn.StopIsKept | packages/daemon/src/agent-turn.ts:12-34 | until a turn finishes or a new one starts, a stop is never lost, whatever else happens |
| AgentTurn.AcceptedStaysAccepted | packages/schema/src/agent-submission.ts:19-38 | no sequence of events makes accepted input a draft again or reruns a completed one |
| Receipts.OutcomeMeaning | packages/daemon/src/operation-receipts.ts:62-81 | a receipt is undecided exactly while a member is missing, queued or running, and then cancelled wins over failed and failed over completed |
| Receipts.SettleExtends | packages/daemon/src/operation-receipts.ts:62-81 | settling never changes a receipt's operation, payload or batch, nor an outcome once given |
| AgentAcceptance.EnqueueBatchGrows | packages/daemon/src/thread-agent.ts:186-195 | an accepted batch is exactly the asking annotations and unsent comments, each not queued before, each once, under fresh identities, then the typed text, appended in that order |
| AgentAcceptance.QueuedShape | packages/daemon/src/thread-agent.ts:141-206 | a prompt that is not a retry only appends queued, never-told submissions and leaves every earlier one alone |
| AgentSafety.AcceptShape | packages/daemon/src/thread-agent.ts:157-198 | an accepted prompt that is not a pure retry adds new submissions with new identities, a user message for each, and one receipt, which names them unless the request also carries a retry, which it then names |
| AgentGuards.EnqueueBatchExactly | packages/daemon/src/thread-agent.ts:186-195 | a batch is queued, all of it or nothing, if and only if none of its comments is queued already or listed twice and together they fit the count and byte limits |
| AgentGuards.AnswersExactly | packages/daemon/src/thread-agent.ts:141-206 | a prompt is repeated, refused, rolled back or accepted, each if and only if its guards hold: what is known of the operation, the review, the harness, the comment, the retry, the limits, and the save |
| AgentSafety.RetryShape | packages/daemon/src/thread-agent.ts:177-185 | a retry requeues one failed submission under a fresh attempt and changes no other |
| AgentInputs.CommentAsks | packages/daemon/src/thread-agent.ts:441-457 | a queued comment is asked in the frozen request's words if there are any, else in those of the annotation with that id, else in the saved comment's: prompt and quote, each from where the source takes it, and a frozen request's discussion |
| AgentInputs.BatchAsksAboutExactly | packages/daemon/src/thread-agent.ts:186-193 | a batch asks about exactly the asking annotations that are not queued and the comments not sent yet, and about none for plain input |
| AgentInputs.AskedExactly | packages/daemon/src/thread-agent.ts:1137-1145 | an annotation is taken if and only if it asks and no submission carries it |
| AgentInputs.BatchAsks | packages/daemon/src/thread-agent.ts:186-195 | each member of a batch is queued in its own words, in order, and the typed text comes last, trimmed, with the request's context as its quote |
| AgentInputs.AcceptedPromptsAsk | packages/daemon/src/thread-agent.ts:458-502 | an accepted prompt that is no retry adds exactly those submissions and a user message with each one's text, on disk |
| AgentFacts.CommentsExactly | packages/daemon/src/thread-agent.ts:565-607 | a comment that is submitted or sent is never edited; another takes the new words, or is added while there are fewer than 128 |
| AgentSafety.StepIsSane | packages/daemon/src/thread-agent.ts:141-292 | every step of the agent, crash included, keeps identities distinct and known, a suspended run matched to its running submission, and memory and disk agreeing on everything accepted |
| AgentTheorems.RunsAreSane | packages/daemon/src/thread-agent.ts:88-138 | the same over whole runs |
| AgentTheorems.OneRunningMeans | packages/daemon/src/thread-agent.ts:504-562 | under the invariant at most one submission is running, and then the phase is running or permission |
| AgentTheorems.OneRunningExactly | packages/daemon/src/thread-agent.ts:199-202 | a step keeps everything marked running tied to the run in flight if and only if it is not a prompt that passes the cheap refusals during a run and then cannot be queued or saved |
| AgentTheorems.TwoRunningExactly | packages/daemon/src/thread-agent.ts:504-528 | a second submission is marked running if and only if a saved drain starts one while another still is; never while the running one is tied to its run |
| AgentTheorems.RunsHaveOneRunning | packages/daemon/src/thread-agent.ts:779-845 | over every run without a rollback in flight at most one submission runs, through crashes and handoffs |
| AgentTheorems.OnlyDrainStarts | packages/daemon/src/thread-agent.ts:504-528 | a submission starts only in a drain, with no turn in progress, no connection closing and no handoff pending, and it is the first queued one |
| AgentTheorems.RestartRequeuesOrFails | packages/daemon/src/thread-agent.ts:112-137 | after a crash nothing runs: what was queued or running is queued again on a durable harness and failed otherwise, the rest is as saved, and no accepted submission is missing |
| AgentOutcomes.StatusesExactly | packages/daemon/src/thread-agent.ts:504-845 | every step, crash included: each submission's status and cancellation mark afterwards, by guards alone; above all, the run's submission is completed if and only if the harness completed the turn, and failed otherwise, cancelled if it was or the harness says so, and no other submission changes |
| AgentOutcomes.PhasesExactly | packages/daemon/src/thread-agent.ts:504-845 | every step, crash included: the phase afterwards, by guards alone |
| AgentOutcomes.EndedMessages | packages/daemon/src/thread-agent.ts:1090-1104 | a completed turn completes exactly its own agent messages, of this attempt when it is a retry; any other turn completes none |
| AgentOutcomes.EndedReceipts | packages/daemon/src/operation-receipts.ts:62-81 | each undecided receipt that names the ended run's submission gets the outcome its members imply, or stays undecided while another is open; a lone submission not cancelled before gets exactly the turn's outcome |
| AgentRuns.LeftAloneTurnsEnd | packages/daemon/src/thread-agent.ts:779-830 | a turn that is left alone: the first queued submission is told to the Thread's harness once, in its frozen words behind any continuation; what the harness says is in the transcript; submission, messages and phase end as the outcome says; and the agent is at rest |
| AgentRuns.QueueIsWorkedOff | packages/daemon/src/thread-agent.ts:504-562 | an agent at rest that is left alone sends out everything queued, in order and once, and completes it |
| AgentFacts.ThrownTurnsFail | packages/daemon/src/thread-agent.ts:831-844 | a turn that throws fails its submission, gives up its connection, starts nothing until that is closed, and then the agent is at rest |
| AgentFacts.StrayWords | packages/daemon/src/thread-agent.ts:1006-1030 | what a connection says before it has answered, or while it writes a summary, is in no transcript |
| AgentTheorems.RollbackStrandsTheRun | packages/daemon/src/thread-agent.ts:1118-1126 | after an in-flight rollback the finished run's submission stays running in an idle Thread, and the next drain that finds something queued runs two |
| AgentLedger.RunsKeepLedger | packages/daemon/src/operation-receipts.ts:38-81 | over every run receipts stay at most 128 with distinct operations and fixed batches, settled outcomes never change, and no accepted input is dropped or altered |
| AgentLedger.UndecidedExactlyWhilePending | packages/daemon/src/thread-agent.ts:763-777 | a receipt on disk without an outcome has a member that is missing, queued or running |
| AgentLedger.AcceptedForever | packages/daemon/src/operation-receipts.ts:13-35 | after acceptance, in every later state the same operation is a repeat that changes nothing and a changed payload under its ID is refused without a trace |
| AgentLedger.RefusalChangesNothing | packages/daemon/src/thread-agent.ts:160-205 | a prompt that is not accepted leaves memory and disk exactly as they were; an accepted one is on disk |
| AgentLedger.RepeatsAreInvisible | packages/daemon/src/thread-agent.ts:145-151 | any run ends exactly where the same run without its redelivered prompts ends |
| AgentReceipts.ReceiptNamesTheBatchExactly | packages/daemon/src/thread-agent.ts:168-198 | the receipt of an accepted request names what it added if and only if it carries no retry, or one that names its own input |
| AgentReceipts.OnlyPresentIsDecided | packages/daemon/src/operation-receipts.ts:62-81 | over any run, crashes included, only a batch whose members are all in the queue is ever given an outcome |
| AgentReceipts.StrayRetriesNeverSettle | packages/daemon/src/operation-receipts.ts:46-81 | the receipt of a comment that came with a retry of something never queued stays undecided over any run |
| AgentHistory.MessagesAreForEver | packages/daemon/src/thread-agent.ts:1006-1104 | over any run and any crashes no message is lost or moved, user messages and finished answers never change, and the file always has the whole transcript |
| AgentHistory.CancelledStartIsNeverSent | packages/daemon/src/thread-agent.ts:798-807 | a turn cancelled while it connects is never sent to the harness, whatever else happens before its run ends |
| AgentHistory.CancelledWhileConnecting | packages/daemon/src/thread-agent.ts:635-654 | so cancelling while the harness connects is enough |
| AgentHistory.CancelReachesTheReceipt | packages/daemon/src/thread-agent.ts:635-651 | however the harness ends a cancelled turn, its submission ends cancelled and every receipt this decides says cancelled |
| AgentHandoff.StepHeads | packages/daemon/src/thread-agent.ts:266-317 | where the Thread is heading (newest request, else handoff target, else its harness) changes only with an accepted switch or a failed handoff |
| AgentHandoff.HeadingIsTheLastWish | packages/daemon/src/thread-agent.ts:266-431 | over every run in which no switch races a begun handoff, and after a reload at any point, the Thread heads for the last accepted request since a handoff last failed |
| AgentHandoff.ArrivedAtTheLastWish | packages/daemon/src/thread-agent.ts:319-392 | when no handoff is pending the Thread's harness is that last request |
| AgentHandoff.FailedHandoffGoesBack | packages/daemon/src/thread-agent.ts:379-391 | a failed handoff puts the Thread back on the harness it had when the handoff was only queued, whatever crashes and resumptions lie between |
| AgentHandoff.RacingSwitchIsLost | packages/daemon/src/thread-agent.ts:272-286 | a switch accepted while a begun handoff is still saved as queued in the permission phase is overwritten by the handoff's next save, whatever its target |
| AgentHandoff.ContinuationStep | packages/daemon/src/thread-agent.ts:520-556 | between handoffs only the step that starts a submission touches the continuation: it prefixes exactly that submission and clears it in the same save |
| AgentHandoff.ContinuationReachesTheNextStart | packages/daemon/src/thread-agent.ts:364 | over any run the continuation waits in memory and on disk until the next start, which is told it |
| AgentHandoff.NoContinuationNoPrefix | packages/daemon/src/thread-agent.ts:551-554 | without a completed handoff no start is ever prefixed |
| AgentRuns.LeftAloneHandoffsArrive | packages/daemon/src/thread-agent.ts:319-378 | a queued handoff that is left alone asks the old harness once for a summary, shows nothing of it, and ends with the newest target in charge, the summary as continuation, queue and transcript as they were, and a switch that came meanwhile as the next handoff |
| AgentRuns.EmptyThreadsGoOver | packages/daemon/src/thread-agent.ts:401 | a Thread without messages is handed over without a summary |
| AgentRuns.SavedSummariesGoOver | packages/daemon/src/thread-agent.ts:399 | a handoff whose summary was saved before a crash goes on from there and asks for none again |
| AgentRuns.TheNextTurnContinues | packages/daemon/src/thread-agent.ts:549-556 | after a handoff the first queued submission goes to the new harness, behind the old one's summary |
| AgentRuns.FailedHandoffsGoBack | packages/daemon/src/thread-agent.ts:379-391 | a handoff that fails ends with the original harness, no handoff, a failed phase and no connection, on disk |
| AgentFacts.BlankSummariesFail | packages/daemon/src/thread-agent.ts:424-430 | a summary of blanks is not taken, and the handoff can only fail and go back |
| AgentDispatch.OneTextPerRequest | packages/daemon/src/thread-agent.ts:530-562 | over every run that never puts a continuation before an already dispatched prompt, two prompts under one request ID carry the same text |
| AgentDispatch.RewriteConflicts | packages/daemon/src/thread-agent.ts:551-553 | conversely such a rewrite, once dispatched, sends two texts under one request ID |
| AgentComments.CommentsStayDistinct | packages/daemon/src/thread-agent.ts:433-456 | an accepted prompt keeps comment identities distinct if and only if it does not mirror one in use |
| AgentComments.CommentsStayDistinctInRuns | packages/daemon/src/thread-agent.ts:433-456 | the same over every run, crashes, reloads and rollbacks included: distinct at the end if and only if no accepted prompt on the way mirrored a comment in the queue |
| AgentComments.NoCommentIsSubmittedTwice | packages/daemon/src/thread-agent.ts:433-456 | from a new Thread |
| AgentWitness.RollbackHappens | packages/daemon/src/thread-agent.ts:177-202 | a concrete run from a new Thread that strands a submission |
| AgentWitness.RewriteHappens | packages/daemon/src/thread-agent.ts:319-392 | a concrete run with a crash and a handoff that rewrites a dispatched prompt |
| AgentWitness.RaceHappens | packages/daemon/src/thread-agent.ts:266-292 | a concrete run in which an accepted switch is lost |
| AgentWitness.CommentIsSubmittedTwice | packages/daemon/src/thread-agent.ts:199-206 | a concrete run from a new Thread after which two submissions carry one comment |
| AgentWitness.StartIsOk | packages/daemon/src/thread-agent.ts:94-108 | a new Thread satisfies every invariant the theorems about runs start from |
| OwnerRelay.RelayRequests | packages/adapters/src/owner-agent-relay.ts:152-175 | requests go to the daemon in order, delivery stops at the first error, and every acknowledged operation has its receipt on disk |
| OwnerRelay.DurableStays | packages/adapters/src/owner-agent-relay.ts:29 | an acknowledged request's receipt stays on disk through any later step |
| OwnerRelay.RedeliveryIsInvisible | packages/adapters/src/owner-agent-relay.ts:154-175 | delivering acknowledged requests again, any of them in any order, changes nothing |
| ThreadAgents.ThreadAgent.constructor | packages/daemon/src/thread-agent.ts:94-108 | a new Thread's agent starts idle and empty |
| ThreadAgents.ThreadAgent.SettleReceipts | packages/daemon/src/operation-receipts.ts:62-81 | the loop settles every receipt as the specification does |
| ThreadAgents.ThreadAgent.Store | packages/daemon/src/thread-agent.ts:763-777 | a save settles and then replaces the file atomically |
| ThreadAgents.ThreadAgent.Recover | packages/daemon/src/thread-agent.ts:88-138 | a restart forgets what only memory knew and reloads the file as the machine's crash step does |
| ThreadAgents.ThreadAgent.Prompt | packages/daemon/src/thread-agent.ts:141-206 | a prompt is repeated, refused, rolled back or accepted, with the state the machine's step gives |
| ThreadAgents.ThreadAgent.TryAccept | packages/daemon/src/thread-agent.ts:160-198 | the body of the `try`: one comment, one retry or the whole batch, and its receipt |
| ThreadAgents.ThreadAgent.EnqueueInput | packages/daemon/src/thread-agent.ts:458-502 | an input that passes the count and byte limits becomes a queued submission and a user message |
| ThreadAgents.ThreadAgent.EnqueueOneComment | packages/daemon/src/thread-agent.ts:433-456 | an available comment not yet queued is frozen into the queue and marked sent |
| ThreadAgents.ThreadAgent.EnqueueAll | packages/daemon/src/thread-agent.ts:186-195 | pending annotations, unsent comments, then the typed text |
| ThreadAgents.ThreadAgent.RetryOne | packages/daemon/src/thread-agent.ts:177-185 | only a failed submission can be retried, under a fresh attempt |
| ThreadAgents.ThreadAgent.DrainOnce | packages/daemon/src/thread-agent.ts:504-562 | drain drops or begins the handoff, or starts the first queued submission, or puts everything back when its save fails |
| ThreadAgents.ThreadAgent.Start | packages/daemon/src/thread-agent.ts:526-561 | the started submission's prompt is frozen, the continuation used up, the state saved, the run suspended |
| ThreadAgents.ThreadAgent.BeginHandoff | packages/daemon/src/thread-agent.ts:326-340 | a handoff begins from the coalesced target with the harness to go back to |
| ThreadAgents.ThreadAgent.OnConnected | packages/daemon/src/thread-agent.ts:790-809 | a connected run is dispatched, or failed without a request when it was cancelled meanwhile |
| ThreadAgents.ThreadAgent.OnFinished | packages/daemon/src/thread-agent.ts:813-830 | the end of a turn finalizes its messages and settles its submission |
| ThreadAgents.ThreadAgent.OnFailed | packages/daemon/src/thread-agent.ts:831-838 | a thrown error fails the submission and retires the connection before anything is saved |
| ThreadAgents.ThreadAgent.CancelTurn | packages/daemon/src/thread-agent.ts:635-654 | cancelling stops the turn and marks the running submission |
| ThreadAgents.ThreadAgent.ReceiveText | packages/daemon/src/thread-agent.ts:954-1050 | a text event reaches the message of this turn or attempt, within the budgets |
| ThreadAgents.ThreadAgent.SwitchTo | packages/daemon/src/thread-agent.ts:266-292 | a switch is refused, recorded behind the handoff under way, queued, or drops the pending one |
| ThreadAgents.ThreadAgent.AskForSummary | packages/daemon/src/thread-agent.ts:412-422 | the summary prompt is frozen, saved and dispatched under the handoff's operation |
| ThreadAgents.ThreadAgent.PrepareHandoff | packages/daemon/src/thread-agent.ts:342-351 | the handoff text is saved with the newest request and the source connection retired |
| ThreadAgents.ThreadAgent.CompleteHandoff | packages/daemon/src/thread-agent.ts:361-378 | the target takes over, the continuation is kept, and a newer request becomes the next handoff |
| ThreadAgents.ThreadAgent.RestoreHarness | packages/daemon/src/thread-agent.ts:379-391 | a failed handoff restores its original harness |
| ThreadAgents.ThreadAgent.Run | packages/daemon/src/thread-agent.ts:64-845 | whatever happens to the object, in any order, crashes included: no accepted input, receipt, outcome or message is lost or changed, the file keeps up with the transcript, and without a rollback in flight what is marked running is what the run in flight will settle |
| Replay.ReplayProgress | packages/adapters/src/durable-acp-task.ts:86-110 | the loop over the log publishes the other events in order and then one replacement per message, in order of first appearance |
| Replay.GroupingExactly | packages/daemon/src/thread-agent.ts:1012-1014 | replay and live agree on which events form one message if and only if the turn is a retry or its unnamed events come beside neither `answer` nor `answer-<turn>` |
| Replay.SameTranscript | packages/daemon/src/thread-agent.ts:1006-1050 | two ways of writing to a transcript come out the same if and only if they add the same messages in the same order and make the same of each message, complete messages and namesakes included |
| ReplayLive.CollectIsLive | packages/adapters/src/durable-acp-task.ts:90-109 | the replay's Map is the live transcript of an uninterrupted turn, texts and order |
| ReplayLive.ReplayEqualsLive | packages/adapters/src/durable-acp-task.ts:86-110 | for any clearly named log, any earlier transcript and any prefix shown live, a full replay leaves the transcript of an uninterrupted turn if and only if no event names a message that an earlier turn left open with text and that the turn never replaces |
| ReplayLive.ReplayEqualsLiveExactly | packages/adapters/src/durable-acp-task.ts:86-110 | for any log at all, unclear names included, replay restores the turn at every crash point if and only if the stated condition on names and open messages holds |
| ReplayLive.TextsAreRestored | packages/adapters/src/durable-acp-task.ts:98-109 | whatever part of the turn was shown before and in whatever order, every text is restored, under the same condition |
| ReplayLive.TranscriptIsRestored | packages/adapters/src/durable-acp-task.ts:98-109 | and the whole transcript if and only if besides what was shown introduced its messages in the log's order and skipped none |
| ReplayLive.ReplayTwice | packages/adapters/src/durable-acp-task.ts:379-392 | a second replay changes nothing |
| ReplayLive.RetriesContinueNothing | packages/daemon/src/thread-agent.ts:1012-1013 | a retry under a new attempt identity meets the condition |
| ReplayLive.ContinuedMessagesDiffer | packages/daemon/src/thread-agent.ts:1029-1050 | the input on which replay and live differ although every name is clear |
| ReplayLive.AnswerMergesInReplay | packages/adapters/src/durable-acp-task.ts:100 | unnamed events beside an explicit `answer` merge in the replay but not live |
| ReplayLive.AnswerMergesLive | packages/daemon/src/thread-agent.ts:1014 | beside an explicit `answer-<turn>` they merge live but not in the replay |
| ReplayLive.ApplyUpdateIsShow | packages/daemon/src/thread-agent.ts:1006-1050 | while texts fit their budgets, applying an update to the transcript, complete messages included, is the showing that replay is compared with |
| ReplayLive.TextEventIsWrite | packages/daemon/src/thread-agent.ts:1006-1020 | the message a text event of the agent reaches, and whether it replaces or appends, is what the comparison with replay takes it to be, for first turns and retries, named and unnamed events |
| ReplayLive.ReceivedIsShown | packages/daemon/src/thread-agent.ts:1006-1050 | so a text event received within the budgets shows exactly that write |
| AcpDispatch.StepIsSound | packages/adapters/src/durable-acp-task.ts:120-406 | every step, crash included, keeps requests and tasks one to one, at most one task open, calls at most one per task and none before the checkpoint, and the log equal to what was said and not still queued for commit |
| AcpTheorems.ToldAtMostOnce | packages/adapters/src/durable-acp-task.ts:125-228 | with or without reattachment, under any crashes and repeats, the harness is told each request at most once, in the words of the request |
| AcpTheorems.RunsGrow | packages/adapters/src/durable-acp-task.ts:338-371 | over every run a request keeps its task and text, a task only gains progress, and a terminal one keeps its outcome and log |
| AcpTheorems.CompletedIsDurable | packages/adapters/src/durable-acp-task.ts:150-204 | a completed turn has on disk, in order and for ever, everything logged before it was last picked up and everything said since then until the harness answered |
| AcpTheorems.NeverConflicts | packages/adapters/src/durable-acp-task.ts:342-351 | if a request always comes with one text, no prompt of any run is refused as a reused ID |
| AcpTheorems.OtherTextConflicts | packages/adapters/src/durable-acp-task.ts:347-348 | once recorded, a request with any other text is refused for ever and changes nothing |
| AcpTheorems.CancelledIsNeverTold | packages/adapters/src/durable-acp-task.ts:136-145 | as long as the daemon lives, a cancelled prompt that has not reached the harness never does |
| AcpOutcomes.StatusesExactly | packages/adapters/src/durable-acp-task.ts:125-311 | every step, crash included: each task's status afterwards, by guards alone; a task completes if and only if its phase settles after an answer with every awaited commit done and none failed, resumed or not |
| AcpOutcomes.AnsweredPromptsComplete | packages/adapters/src/durable-acp-task.ts:188-207 | from a new machine, however the harness's words within 8 MiB, their commits and its answer interleave: the prompt returns completed, with everything logged and shown in order |
| AcpCalls.RepliesExactly | packages/adapters/src/durable-acp-task.ts:331-371 | a call starts a task, repeats one, conflicts or is refused as occupied, each if and only if its guards hold, and refusals change nothing |
| AcpCalls.ReturnsExactly | packages/adapters/src/durable-acp-task.ts:377-404 | a call returns if and only if its task is known to it and over, and only a repeat publishes the log once more |
| AcpCalls.CancelledPromptIsNeverTold | packages/adapters/src/durable-acp-task.ts:318-320 | a prompt cancelled before its task reached the harness never gets there while the daemon lives, though the task had no name yet, and can then be aborted |
| AcpCalls.ToldExactly | packages/adapters/src/durable-acp-task.ts:134-189 | a task is told to the harness by the call behind its checkpoint, unless it was aborted or its prompt cancelled, and by nothing else |
| AcpCalls.LogsExactly | packages/adapters/src/durable-acp-task.ts:150-184 | a log grows only by the next event heard, if and only if it then has at most 8 MiB, and only what was logged last is shown |
| AcpCalls.PhasesEnd | packages/adapters/src/durable-acp-task.ts:125-308 | a phase ends exactly by an abort or cancellation it finds, by the end of its commits, by throwing, and by a crash |
| AcpRecovery.RunsShowTheLog | packages/adapters/src/durable-acp-task.ts:150-184 | over any run, reattachment included, what was shown live is a subsequence of the log |
| AcpRecovery.LiveIsAPrefixOfTheLog | packages/adapters/src/durable-acp-task.ts:150-184 | without reattachment, or over any run that forgets no committed event, the user is at most one committed event behind the log and never ahead of it |
| AcpRecovery.ReplaysRestoreTheTexts | packages/adapters/src/durable-acp-task.ts:379-392 | over any run, crashes and reattachment included, whatever survived of the live stream, any number of replays restores every text if and only if the turn continues no message of an earlier one |
| AcpRecovery.ReplaysRestoreTheTurn | packages/adapters/src/durable-acp-task.ts:379-392 | and the whole transcript if and only if besides what survived introduced its messages in the log's order and skipped none |
| AcpRecovery.ReplayRestoresTheTurn | packages/adapters/src/durable-acp-task.ts:379-392 | so for any prefix of the live stream, without reattachment or as long as no committed event was forgotten, exactly when nothing is continued |
| AcpRecovery.ReattachedTurnsMayReorder | packages/adapters/src/durable-acp-task.ts:234-265 | the run from a new machine, through a crash, a reattachment and a repeated prompt, after which two messages have changed places |
| DurableAcp.DurableAcpTask.FinishPrompt | packages/adapters/src/durable-acp-task.ts:377-404 | the call returns its task's outcome, and a repeat is handed the whole log |
| DurableAcp.DurableAcpTask.Serve | packages/adapters/src/durable-acp-task.ts:113-404 | the object driven through one prompt that the harness answers: the outcome is completed, and all the harness said is logged and shown in order |
| DurableAcp.DurableAcpTask.Run | packages/adapters/src/durable-acp-task.ts:113-406 | whatever happens to the object, in any order, deaths of the daemon included: requests, logs and outcomes are never lost or changed, and no request is told twice or in other words |
| AgentOverAcp.ToldAtMostOnceVerbatim | packages/daemon/src/thread-agent.ts:809 | across agent and adapter, with crashes in either: no prompt is refused as a reused ID and the harness is told each request at most once, in the words the agent dispatched, unless a dispatched prompt is rewritten |
| LogText.ReadThread | packages/daemon/src/store.ts:227-251 | the backward scan finds the last valid line, counts the lines and says whether the tail was torn |
| LogText.AppendReads | packages/daemon/src/store.ts:203 | an append to a terminated log, cut anywhere, reads as before (torn) short of the whole record and as the new record from there on |
| LogText.FusedAppendReads | packages/daemon/src/store.ts:203 | an append behind a record without its newline loses both from the reading |
| LogText.AppendIsReadExactly | packages/daemon/src/store.ts:246 | an append is read back whole if and only if the log ended with a newline |
| LogCrash.UpsertExactly | packages/daemon/src/store.ts:185-206 | an upsert keeps memory and disk agreeing if and only if it does not append to a log whose newline is missing |
| LogCrash.FusionLosesBoth | packages/daemon/src/store.ts:203 | after such an upsert a restart reads neither the new record nor the one before it |
| LogCrash.DeleteIsOk | packages/daemon/src/store.ts:208-219 | a delete removes one thread from memory and disk and no other |
| LogDisk.LogAfterUpsert | packages/daemon/src/store.ts:185-206 | an upsert rewrites a known thread's log to one line if and only if it has forty lines or the thread is resolved or has pending message operations, and else adds one line; a new thread's log is made in its bucket; no other file changes |
| LogDisk.LogAfterDelete | packages/daemon/src/store.ts:208-219 | a delete removes that thread's log and no other file |
| LogCrash.CrashRefines | packages/daemon/src/store.ts:163-206 | wherever a crash falls in an append, a rename or a removal, a restart will find the operation done or not done, nothing else |
| LogRuns.RecoveryFinds | packages/daemon/src/store.ts:78-115 | a restart, in whatever order files are listed, finds every thread's last valid record and leaves every log whole |
| LogRuns.RecoveryCanCrash | packages/daemon/src/store.ts:105 | a crash in the middle of a restart costs nothing |
| LogRuns.RunsRefine | packages/daemon/src/store.ts:65-219 | crash refinement: over every run of operations, crashes, restarts and crashed restarts that never fuses, reads are those of a plain map in which an interrupted operation happened or did not, and no log passes 40 lines |
| LogRuns.OnlyTheLostNewlineFuses | packages/daemon/src/store.ts:246 | unless a crash takes exactly a newline, no run ever fuses, so every run refines the map |
| LogWitness.TwoRecordsAreLost | packages/daemon/src/store.ts:203 | the run from an empty store in which a crash takes a newline and the next write loses two records |
| LogWitness.LawfulCodecsExist | packages/daemon/src/store.ts:227-251 | the laws assumed of JSON can be met |
| ThreadStores.ThreadStore.RewriteLog | packages/daemon/src/store.ts:163-175 | a log is replaced by one line, atomically |
| ThreadStores.ThreadStore.Put | packages/daemon/src/store.ts:185-206 | an upsert appends or compacts as the specification does, and the map holds the record |
| ThreadStores.ThreadStore.Remove | packages/daemon/src/store.ts:208-219 | a delete says whether the thread was there and removes it with its log |
| ThreadStores.ThreadStore.Recover | packages/daemon/src/store.ts:78-115 | the scan reads every file and rewrites the torn ones |
| ThreadStores.Compare | packages/daemon/src/store.ts:258-299 | without crashes the file store and the in-memory store answer alike throughout, and a restart at any moment would find the same threads |
| Framing.ChunksJoin | packages/daemon/src/protocol.ts:58-81 | what two chunks deliver one after the other is what they deliver joined |
| Framing.LineBuffer.Push | packages/daemon/src/protocol.ts:58-81 | a push delivers exactly the lines completed so far and keeps the open one |
| Framing.LineBuffer.Next | packages/daemon/src/protocol.ts:60-80 | one turn of the loop completes one line or sets the rest aside |
| Framing.BackpressureWriter.Write | packages/daemon/src/protocol.ts:101-113 | accepted and pending bytes are always everything written; while something is pending nothing new is offered to the socket |
| Framing.BackpressureWriter.Drain | packages/daemon/src/protocol.ts:116-125 | a drain moves bytes from pending to accepted and loses none |
| Wire.FramesAreDelivered | packages/daemon/src/protocol.ts:54-82 | splitting undoes framing |
| Wire.EndToEnd | packages/daemon/src/protocol.ts:54-126 | for every sequence of frames, schedule of partial writes and drains, and chunking between characters, the delivered lines are a prefix of the frames, and all of them once everything is flushed |
| Wire.Flushes | packages/daemon/src/protocol.ts:116-125 | from any point of any run a full drain and one last arrival deliver every frame |
| Wire.CutsExactly | packages/daemon/src/client.ts:348 | decoding two chunks one by one gives the text if and only if the cut falls between two characters |
| HarnessState.HarnessStateStore.BindSession | packages/daemon/src/harness-state-store.ts:26-46 | a session is bound once per Thread, and every change is in the file before it is answered |
| HarnessState.HarnessStateStore.EnqueueMessage | packages/daemon/src/harness-state-store.ts:109-128 | a binding and a Message have one delivery |
| HarnessState.HarnessStateStore.PendingFor | packages/daemon/src/harness-state-store.ts:130-134 | the pending deliveries of a binding, in the order they were queued |
| HarnessState.HarnessStateStore.AcknowledgeDelivery | packages/daemon/src/harness-state-store.ts:164-181 | an acknowledgement touches one delivery and repeats harmlessly |
| HarnessState.HarnessStateStore.ConsumeRetry | packages/daemon/src/harness-state-store.ts:91-102 | a Message is recorded as consumed on its binding, once |
| HarnessState.HarnessStateStore.DeleteThreadState | packages/daemon/src/harness-state-store.ts:58-89 | a Thread's bindings and their deliveries go, the rest keeps its order |
| HarnessState.ConsumeExactly | packages/daemon/src/harness-state-store.ts:91-102 | a retry is granted if and only if the binding is known and what it recorded last is not this Message, whatever else it recorded |
| HarnessState.DeleteExactly | packages/daemon/src/harness-state-store.ts:58-89 | exactly the Thread's bindings and the deliveries to them go, and the rest stays in order |
| DeliveryProtocol.StepIsSound | packages/adapters/src/delivered-message-store.ts:26-43 | every step of any number of workers, deaths included, keeps acknowledged within journaled within injected, every injection accounted for, and first injections in order |
| DeliveryProtocol.DeliveryHolds | packages/adapters/src/harness-thread-controller.ts:283-294 | over every run: acknowledged implies journaled implies injected; a Message is injected exactly once more than workers died between injecting and journaling it, once journaled; first injections follow the order of queueing; one delivery per Message |
| DeliveryProtocol.JournaledIsNeverInjectedAgain | packages/adapters/src/delivered-message-store.ts:33-39 | a journaled Message is never injected again, whatever dies and whoever retries |
| DeliverPending.DeliveredMessageStore.SendOnce | packages/adapters/src/delivered-message-store.ts:26-43 | a Message is injected unless the journal knows it, and then the journal does |
| DeliverPending.DeliverAll | packages/adapters/src/harness-thread-controller.ts:283-294 | the loop hands over exactly the pending Messages not yet had, in order, and leaves nothing of the binding pending and other bindings untouched |
| DeliveryRuns.LeftAloneEverythingArrives | packages/adapters/src/harness-thread-controller.ts:283-294 | from any state with the lock free, whatever died before, a worker left alone injects exactly the pending Messages the journal does not know, in order, and leaves nothing of its binding pending |
| DeliveryRuns.QueuedArrives | packages/adapters/src/harness-thread-controller.ts:283-294 | a Message queued for a binding is in the journal after the next turn that is left alone |
| ApprovedRetry.OneRetryPerMessage | packages/daemon/src/api.ts:238-258 | over any run each approved Message grants at most one retry |
| ApprovedRetry.GrantsAreDeserved | packages/daemon/src/api.ts:245-257 | a grant goes only to the Thread's first binding, only for the Message that approved it and was acknowledged, only while the content is what was approved |
| ApprovedRetry.RetriesAreGrantedExactly | packages/daemon/src/api.ts:238-258 | in every state of every run a retry is granted if and only if this Message approved the plan, its first session asks, has acknowledged it, the content is unchanged, and no retry was granted for it before |
| RoutingOutcomes.ApprovedPlansAreRetriedOnce | packages/daemon/src/api.ts:238-258 | in every state of every run, once an open plan is approved and its first session acknowledges that, the session is granted its retry and no second one; after a revision and a new approval just the same |
| RoutingOutcomes.ThreadsExactly | packages/daemon/src/api.ts:356-363 | every step, crashes and restarts included: a Thread is created, sent on, revised, refreshed or deleted only by the step that says so; a Message has its verdict, the content of the moment and a new identity, and closes the review unless it only comments |
| ApprovedRetry.FirstBindingStays | packages/daemon/src/harness-state-store.ts:104-107 | the first binding of a Thread stays its first as long as the Thread exists, restarts included |
| ApprovedRetry.RestartQueuesEverything | packages/daemon/src/api.ts:152-155 | a restart after a crash between the Thread's write and the delivery's queues every current Message and disturbs nothing already queued |
| RoutingOutcomes.NothingStaysUnqueued | packages/daemon/src/api.ts:356-363 | over any run whose restarts visit every Thread, wherever the daemon dies, each Thread's current Message is queued for its first session after every step |
| RoutingOutcomes.RestartsQueue | packages/daemon/src/api.ts:152-155 | a restart that visits every Thread leaves nothing unqueued, whatever a crash had left |
| RoutingOutcomes.SessionsAreBoundOnce | packages/daemon/src/harness-state-store.ts:26-46 | over any run a session is bound to a Thread at most once |
| ApprovedRetry.OneDeliveryPerMessage | packages/daemon/src/api.ts:356-363 | over any run a Message is queued once, for its Thread's submitter only |
| ApprovedRetry.MessagesAreRoutedOnce | packages/daemon/src/api.ts:356-363 | so from a new daemon, whatever happens, crashes between the two writes included |
| Wrap.PackGreedy | packages/gateway/src/collaborator-join.ts:53-71 | the loop yields the rows of the greedy packing |
| Wrap.PackIsLegal | packages/gateway/src/collaborator-join.ts:57-66 | greedy packing keeps every word in order, on rows that fit or hold a single word |
| Wrap.GreedyIsOptimal | packages/gateway/src/collaborator-join.ts:53-71 | it uses the fewest rows of any packing that keeps the order, for any words, blank and overlong ones included |
| Wrap.WiderIsNoLonger | packages/gateway/src/collaborator-join.ts:87 | more width never takes more rows |
| Wrap.RowsSpellTheLine | packages/gateway/src/collaborator-join.ts:53-71 | rows joined with spaces are the words joined with spaces, when no word is blank |
| Wrap.Tighten | packages/gateway/src/collaborator-join.ts:80-93 | the binary search ends at the least width between the longest word and the limit that keeps the fewest rows, or at the limit if a word is longer |
| Wrap.WrapToWidth | packages/gateway/src/collaborator-join.ts:75-96 | a short line is left alone; any other is packed at that width, fits, and reads as it did |
| Wrap.NarrowestOfTheShortest | packages/gateway/src/collaborator-join.ts:73-74 | no way of putting the words in order on that few rows is narrower |
| RateLimit.TokenBucket.Take | packages/gateway/src/rate-limit.ts:17-34 | one take refills by elapsed time, spends a whole token or none, and touches no other key |
| RateLimit.RateBound | packages/gateway/src/rate-limit.ts:17-34 | from any state, over any interleaving of keys, grants to one key are at most what it had plus the refill |
| RateLimit.WindowBound | packages/gateway/src/rate-limit.ts:1-6 | in any window grants to one key are at most capacity plus the window's refill, and tokens stay between nothing and capacity |
| RateLimit.WaitingHelps | packages/gateway/src/rate-limit.ts:20-23 | with capacity for one token, waiting one token's time is always enough |
| RateLimit.SmallBucketsGrantNothing | packages/gateway/src/rate-limit.ts:20-23 | with less capacity than one token no wait is ever enough |
| RateLimit.FirstIsFull | packages/gateway/src/rate-limit.ts:17-23 | a key not seen before has a full bucket |
| RateLimit.BurstExactly | packages/gateway/src/rate-limit.ts:17-34 | of calls at one moment exactly as many are granted as whole tokens are left |
| RateLimit.TokensAreConserved | packages/gateway/src/rate-limit.ts:17-34 | as long as a bucket does not spill, what a key had and what came in is what it was granted and what is left |
| Publisher.NoLostRefresh | packages/adapters/src/latest-state-publisher.ts:2-21 | one write at a time, and a call's promise resolves only after a write begun after the call has finished, or rejects because a write failed |
| Publisher.TwoWritesSuffice | packages/adapters/src/latest-state-publisher.ts:11-14 | with no further calls, the write under way and one more settle everything |
| Publisher.PendingResolves | packages/adapters/src/latest-state-publisher.ts:6-20 | from any state a pending promise resolves after at most two more writes, and nothing is left to do |
| Publisher.FailureRejects | packages/adapters/src/latest-state-publisher.ts:11-18 | a write that fails rejects the promise and stops the loop, and the next call starts a new one |
| Publisher.LatestStatePublisher.Publish | packages/adapters/src/latest-state-publisher.ts:6-20 | a call marks the state dirty and shares the pending promise or starts a loop |
| Publisher.LatestStatePublisher.Resume | packages/adapters/src/latest-state-publisher.ts:11-14 | a resumed loop starts the next write or finishes |
| Publisher.LatestStatePublisher.Run | packages/adapters/src/latest-state-publisher.ts:2-21 | the object driven through any interleaving of calls and slow writes keeps that promise |
| Subscription.DeliveriesIncrease | packages/daemon/src/thread-subscription.ts:47-57 | over every order of callbacks the (connection, read) pairs delivered strictly increase |
| Subscription.DeliversTheNewest | packages/daemon/src/thread-subscription.ts:56-57 | a value is delivered only from the newest-started read of the newest-started connection |
| Subscription.NothingAfterDispose | packages/daemon/src/thread-subscription.ts:118-125 | after dispose nothing is delivered and nothing dialed, whatever still arrives |
| Subscription.FatalIsFinal | packages/daemon/src/thread-subscription.ts:59-70 | after a fatal error nothing is dialed and nothing delivered |
| Subscription.ObservingExactly | packages/daemon/src/thread-subscription.ts:77-116 | an observer that is dialing, listening or about to dial stays so after a step if and only if the step neither disposes of it nor fails it fatally |
| Subscription.NewObserversObserve | packages/daemon/src/thread-subscription.ts:20-125 | over every run from a new observer, as long as nothing was disposed and nothing failed fatally, the timer is armed or the newest connection is current and not over |
| Subscription.LossIsRedialed | packages/daemon/src/thread-subscription.ts:77-91 | a non-fatal loss or failure of the current connection arms the timer, and the next dial starts a connection newer than all before |
| Subscription.LossIsRecovered | packages/daemon/src/thread-subscription.ts:77-116 | and if that one connects, a value it reads is delivered |
| Subscription.PromptsAreRead | packages/daemon/src/thread-subscription.ts:42-57 | a subscribed connection and an event on it start a read newer than all before on that connection |
| Subscription.NewestIsDelivered | packages/daemon/src/thread-subscription.ts:53-57 | the answer of a read that is still the newest of the newest connection is delivered |
| Subscription.ThreadSubscription.OnRead | packages/daemon/src/thread-subscription.ts:53-57 | a read is handed on exactly when it is the newest of the newest |
| Subscription.ThreadSubscription.OnDisconnect | packages/daemon/src/thread-subscription.ts:77-91 | a lost connection ends its epoch and dials again unless the loss is fatal |
| Subscription.ThreadSubscription.Run | packages/daemon/src/thread-subscription.ts:20-125 | the object driven through any order of callbacks: what was delivered stays, deliveries come from ever newer reads of ever newer connections, and an ended observation delivers and dials nothing |
| DiffCapture.InstalledInOrder | packages/daemon/src/api.ts:1158-1219 | over every interleaving, captures are installed in strictly increasing generations |
| DiffCapture.ClosedStaysClosed | packages/daemon/src/api.ts:1188-1191 | a capture never changes a resolved review, and a deleted one never returns |
| DiffCapture.RevisionsAreOverwrittenExactly | packages/daemon/src/api.ts:1186-1196 | a capture older than the submitted revision overwrites it if and only if no refresh was started since it began, the review is open and the patches differ |
| DiffCapture.RefreshProtects | packages/daemon/src/api.ts:1166-1168 | once a refresh has started, every older capture is discarded |
| DiffCapture.OvertakenIsDiscarded | packages/daemon/src/api.ts:1186-1187 | over any run a capture that a refresh has overtaken is never installed any more |
| DiffCapture.RefreshBeginsExactly | packages/daemon/src/api.ts:1158-1180 | a refresh of an open review begins one capture newer than all before; of any other it begins nothing |
| DiffCapture.NewestIsInstalled | packages/daemon/src/api.ts:1186-1217 | the newest capture of an open review is installed when it comes back, if it saw something else |
| DiffCapture.DeletedIsGone | packages/daemon/src/api.ts:1188-1191 | nothing is ever installed in a deleted review |
| DiffCapture.OlderExactly | packages/daemon/src/api.ts:1186-1196 | a step makes the review older if and only if it installs a capture begun before a revision that what is shown has seen |
| DiffCapture.RevisionsSurvive | packages/daemon/src/api.ts:980-1015 | over any run in which no revision is submitted over the newest capture, a revision is only ever replaced by something that has seen it |
| DiffCapture.StaleCaptureWins | packages/daemon/src/api.ts:980-1015 | the run in which a submitted revision is lost |
| DiffCapture.DiffReview.BeginRefresh | packages/daemon/src/api.ts:1158-1168 | a refresh of an open review starts a new generation |
| DiffCapture.DiffReview.EndRefresh | packages/daemon/src/api.ts:1186-1217 | a finished capture is installed or discarded, and says which |
| DiffCapture.DiffReview.Run | packages/daemon/src/api.ts:1158-1219 | the object driven through any interleaving installs captures in the order they began and never brings a deleted review back |

## Left out

- The adapter's `onExit` callback of a Thread agent connection, which sets the phase without settling the run.
- Deleting and disposing a Thread agent, tool activity, configuration options other than the harness, and a permission's options.
- The shared comment a relay saves before it prompts, the merge of shared annotations, and the relay's reconnect delays.
- Agent replies to comments, anchors and quotes that must resolve, comment size limits, and the wording of prompts: what a harness is told is a parameter.
- AgentInputs.CommentAsks: does not say which discussion snapshot a comment takes along when no request froze one (`packages/daemon/src/thread-agent.ts:1147-1171`), because replies and their anchors are left out; it only ever reaches the wording of the prompt.
- A Thread agent save that fails outside `prompt` and `drain`, and the 8 MiB limit on its record. A save that fails in the drain at the end of a run or of a handoff is modelled as a drain that does nothing; there the source also retires the connection and sets the phase to failed, and after a handoff it goes back to the old harness.
- Hash and UUID collisions: a fingerprint is the payload it hashes, a minted identity is fresh. Message identities that are spelled alike by accident are told apart in the agent's machine; what happens when they are not is the subject of `ReplayLive`. Lone surrogates: a text is a sequence of Unicode scalar values.
- Handoff output pieces: the summary a harness produced is one parameter, and one that is not text fails the handoff.
- ACP events that arrive while no prompt listens are published without being logged, and a link of the commit chain still under way when its phase throws is taken to be dropped.
- What the durable engine does with a task whose phase threw, other than leave it, run it again or give it up; how a reattached harness resends lines from its cursor.
- The store's one-time migration of old records, `list` and its order, and a failed write that is not a crash. JSON is a codec with stated laws.
- Re-entrant `onLine` callbacks that push into the same line buffer.
- The message journal's lock file and its reaping, which are an ideal mutex that dies with its holder; in the delivery machine no Thread is deleted.
- A crash in the middle of deleting a Thread, and the orphans the next start removes; repeated `sessionSendMessage` operations, which answer from a receipt.
- Branches, navigation, annotations and working copies of a Thread: only status, message, content and revision matter here.
- A diff capture's patch stands for its patch and its source revision together; pull-request captures follow the same steps and are not modelled apart.
- Floating-point rounding in the token bucket, and clocks that run backwards.
- The values an observer reads, and its `onError` and `onConnect` callbacks.
- Terminal screens other than their wrapping, version-control subprocesses, SSH, and the command line.
