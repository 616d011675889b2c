# Verified models of the problem locator

The problem locator runs diagnostic conversations: a user describes a problem, a core diagnoses it as a Case, and a
store keeps conversations, their numbered runs, messages, a deduplicated event log, stop receipts and frozen
intents durable while several threads work on them. This project models the parts of it in which the order of
events decides correctness, and the algorithms beside them that have an exact specification, and proves what they
promise. `dafny verify dfyconfig.toml` checks all of it.

## The conversation store

- `Conversation.dfy` has the tables of one conversation as a value and every transaction of
  `agent/store.py` as a function on them. A transaction works on `Tx`, the tables plus the run body it holds in memory
  with its own copy of the last event number; a transaction that raises is an `Err` and leaves nothing behind.
- `ConversationInvariant.dfy`, `ConversationSteps.dfy` and `ConversationControl.dfy` state the invariant of the tables
  and prove that every transaction keeps it and only moves the conversation forward.
- `ConversationRuns.dfy` puts the transactions into a system: senders under the message lock, control threads that
  settle stops, the intake worker, the core that commits Cases and holds receipts, and restarts of the process.
  `ConversationSafety.dfy` proves that every step of every thread keeps the invariant of that system, and
  `ConversationTheorems.dfy` draws the theorems about whole runs from it. `ConversationCases.dfy` adds what a run and
  its Case have to do with each other.
- `ConversationReceipts.dfy` says which sends are answered with a receipt and which with a conflict, and what a new
  message, intent or stop does; `ConversationEnds.dfy` how runs end and what the log says of it; `ConversationUse.dfy`
  when a message is used; `ConversationWork.dfy` what the other transactions do, each from the rows it finds.
- `ConversationMeaning.dfy` states what single transactions are for: adoption, questions, deletion, recovery.
- `AgentStore.dfy` is the imperative form: a transaction object changed step by step and a store that commits or drops
  it, each method tied to the function it implements.
- `ClientInput.dfy` and `ClientSend.dfy` add the browser side that turns an input into a message or a follow-up
  question, and the answer of the server to one send as a function of its reads and transactions, each at its own time
  in the history. `ConversationWitness.dfy` has the histories in which a property fails.
- `IntakeOnce.dfy` has the call-once protocol around the intake model, on the same dispatch ledger.

What is assumed of the core when it commits a Case is written in `Enabled`: a Case with a result status carries a
report, a result stays a result, a command is accepted once, and a frozen command is executed as it was frozen. What is
assumed of the service is written there too: a direct submission or a freeze is made by the thread that holds the
message lock and found neither a receipt nor an intent, a stop is settled by a thread that saw the run CANCELLING, and an
intent is reported as completed only when the core holds its receipt. The creation of a Case is prepared only for a run
with a message, a process has an epoch of its own, and an update of the intake shows WAITING_INPUT only where
`UpdateIntakeIff` allows it; the service passes RUNNING.

## The other models

- `Fips180.dfy` is SHA-256 as FIPS 180-4 defines it; `FileSha256.dfy` is the streaming implementation on JavaScript
  numbers and typed arrays; `Fips180Constants.dfy` derives the constants.
- `Timing.dfy` and `WaitTime.dfy` have the attribution of elapsed time to causes.
- `Supersedes.dfy`, `Diagnosis.dfy`, `DiagnosisLaws.dfy`, `DiagnosisMeaning.dfy` and `DiagnosisDelta.dfy` have the application of
  a state delta: its steps, its laws, its meaning item by item, and the loops that carry it out.
- `Workers.dfy` and `AttachmentWorkers.dfy` have the attachment workers, the usage guard and the cleanup leases.
- `Commands.dfy` has the exactly-once commands, `EventReader.dfy` and `EventStream.dfy` the event stream and its
  reader, `AuditBundle.dfy` the audit bundle.

## What the code does not do

Some properties one would expect hold only under a condition. Each is stated with its exact condition and with a run
or an input that fails it.

- A restart intent that one thread rejects while another already executes its command leaves the Case command committed
  without its message (`RestartTakenIffPending`, `CommandWithoutMessage`).
- A client input can become both a message and a follow-up. The control thread dispatches intents without the message
  lock (service.py:597-606), so three answers that the run has changed can be given for a request that is or becomes a
  message: the run is found over after the intent was committed (`BothAfterStop`), the retarget comes second
  (`BothAfterRetarget`), the stale command is refused after the intent moved on (`BothAfterRefusal`). For every branch
  `ChangedIsFinalIff` says when the answer is final, and `NeverBoth` follows from it.
- `update_intake` with its default status shows WAITING_INPUT while a Case runs; the next message is then unread in a
  waiting run (`UpdateIntakeIff`, `WaitingWithUnreadInput`). No caller in the service does this.
- The cause durations exceed the elapsed time when the first line is later than the last (`AllocatedCauses`).
- A stage 60 levels deep takes time from a wait (`WaitTimeIff`, `SixtyLevelsTakeWaitTime`).
- Added user facts escape the circle check (`CircleIff`, `NeverCyclicIff`, `UserFactsCanCloseACircle`).
- A text with a frame at the limit is read or refused depending on where it is cut (`CutsDoNotMatterIff`,
  `OneTextTwoCuts`).

## Model

| member | source | states |
|---|---|---|
| `ConversationTheorems.EventLog` | src/problem_locator/agent/store.py:338-355 | in every state of every run the events are numbered 1 to the last number without gap or repeat, no run has two events under one dedupe key, and the log only grows |
| `ConversationTheorems.StopOrReport` | src/problem_locator/agent/store.py:868-939 | before deletion a run whose report is available is never cancelled and all its stop receipts say ALREADY_FINISHED; a cancelled run stays cancelled, never has a result event, and its receipts say CANCELLED |
| `ConversationTheorems.SettledStop` | src/problem_locator/agent/store.py:921-939 | settling a stop ends in CANCELLED exactly when no report came first, and every receipt of the run says which |
| `ConversationTheorems.NoLostInput` | src/problem_locator/agent/store.py:1091-1147 | while a run is open every message that is neither UNUSED nor covered keeps the work latch set; the latch hides the questions and excludes WAITING_INPUT; in a settled run every message is final |
| `ConversationTheorems.OneOpenRun` | src/problem_locator/agent/store.py:296-326 | before deletion only the current run is neither closed nor reported, the conversation row mirrors it, a closed run keeps its status, and an APPLIED or UNUSED message never changes again |
| `ConversationTheorems.OncePerRequest` | src/problem_locator/agent/store.py:413-487 | a request identifier has at most one message over the direct and the frozen path, a run at most one restart in PENDING or COMMITTED; a PENDING restart has no message, a COMMITTED or COMPLETED one has it, and a REJECTED one may have either |
| `ConversationTheorems.RestartWithCommand` | src/problem_locator/agent/store.py:583-608 | the Case commit that accepts the command of a pending restart inserts its message in the same step, and is rolled back as a whole once the run was stopped, closed, reported or deleted |
| `ConversationTheorems.RestartMessageSource` | src/problem_locator/agent/store.py:583-608 | conversely the message of a pending restart is accepted only by the commit of its own command or by the routed submission of its own request |
| `ConversationTheorems.RestartTakenIffPending` | src/problem_locator/agent/store.py:575-608 | which commits of a frozen command bring the message along: exactly those that still find the intent PENDING |
| `ConversationWitness.CommandWithoutMessage` | src/problem_locator/agent/store.py:575-608 | a run in which one thread rejects the intent while another executes it: the command commits, the tables move on, and the message is not there |
| `ConversationTheorems.ShutRunsTakeNothing` | src/problem_locator/agent/store.py:328-331 | once a run was stopped, closed or reported, or the conversation deleted, no later state has one more message for it |
| `ConversationTheorems.ChangedTargetStays` | src/problem_locator/agent/store.py:333-336 | a target run that has changed stays changed in every later state |
| `ConversationTheorems.Always` | src/problem_locator/agent/store.py:277-355 | the invariant of the tables, the locks and the core holds in every reachable state, whatever the threads do |
| `ConversationTheorems.Onward` | src/problem_locator/agent/store.py:296-326 | between any two states of a run the conversation only moves forward: log, runs, closed statuses, message finality, receipts, restarts |
| `ConversationSafety.StepKeeps` | src/problem_locator/agent/service.py:197-318 | each of the 25 kinds of steps of senders, control threads, workers, the core and a restart keeps the invariant and moves forward |
| `ConversationSafety.CommitKeeps` | src/problem_locator/agent/store.py:1447-1553 | a Case commit with its projection keeps the invariant, including the tie between the core's receipts and the frozen intents |
| `ConversationSafety.RestartedKeeps` | src/problem_locator/agent/store.py:1561-1585 | so does the recovery under a new epoch |
| `ConversationSteps.SubmitStep` | src/problem_locator/agent/store.py:413-487 | an accepted submission keeps the invariant, moves forward and leaves the request with a message |
| `ConversationSteps.ProjectStep` | src/problem_locator/agent/store.py:1447-1553 | a projection keeps the invariant for every status a Case can have |
| `ConversationSteps.ClosedRunIsLeftAlone` | src/problem_locator/agent/store.py:1447-1466 | a projection that finds its run closed changes nothing but adoption notes: the early return drops no event, intent or message, whatever the core accepted meanwhile |
| `ConversationSteps.AcceptAdoptionsOk` | src/problem_locator/agent/store.py:1266-1303 | adopting what the core accepted keeps the invariant and appends nothing in a settled run |
| `ConversationSteps.AcceptRestartsOk` | src/problem_locator/agent/store.py:583-608 | the pass over the intents takes exactly the accepted pending ones of its run, adds a message for each, and only in an open run |
| `ConversationControl.FinishStopStep` | src/problem_locator/agent/store.py:921-933 | settling keeps the invariant for a run that was asked to stop and decides CANCELLED or the status it had |
| `ConversationControl.RequestStopStep` | src/problem_locator/agent/store.py:868-886 | a stop of an open, stopping or ended run keeps the invariant |
| `ConversationControl.IdleStopStep` | src/problem_locator/agent/store.py:888-911 | so does the idle stop |
| `ConversationControl.DeleteStep` | src/problem_locator/agent/store.py:948-982 | deletion keeps the invariant and only moves forward |
| `ConversationControl.FinishIntakeStep` | src/problem_locator/agent/store.py:1091-1147 | settling a batch keeps the invariant although messages may have arrived meanwhile |
| `ConversationControl.UpdateIntakeIff` | src/problem_locator/agent/store.py:1156-1168 | for every draft, questions and status an accepted update keeps the invariant exactly when the status is not WAITING_INPUT, or input is unread, or the Case has no status or waits |
| `ConversationControl.WaitingWithUnreadInput` | src/problem_locator/agent/store.py:1156-1168 | outside that condition: with the default status and the next submission the run is WAITING_INPUT with unread input |
| `ConversationControl.RecoverStep` | src/problem_locator/agent/store.py:1561-1585 | recovery keeps the invariant |
| `ConversationInvariant.Saved` | src/problem_locator/agent/store.py:296-326 | a transaction that appends plain events, finishes messages of its own run and ends with a body that answers for them keeps the whole invariant when it is saved |
| `ConversationMeaning.AdoptionApplies` | src/problem_locator/agent/store.py:1290-1303 | after the pass every message handed to an accepted command is APPLIED unless it was final before, and released; every other message is as it was |
| `ConversationMeaning.BatchApplies` | src/problem_locator/agent/store.py:1271-1289 | every message an accepted batch names is final afterwards |
| `ConversationMeaning.QuestionsComeBack` | src/problem_locator/agent/store.py:1476-1493 | over a projection, a message and the end of a batch: the questions of a waiting Case are hidden behind the unread message, and come back with their event in the log exactly when no message is left unread (1131-1139) |
| `ConversationMeaning.DeletionStopsEverything` | src/problem_locator/agent/store.py:948-982 | after deletion every run is stopping or over and has no unfinished message |
| `ConversationMeaning.RecoveryLeavesNothingRunning` | src/problem_locator/agent/store.py:1561-1585 | after recovery every run that was not closed carries the new epoch, has adopted its finished Case, or was interrupted if it had input |
| `ConversationReceipts.KnownMessage` | src/problem_locator/agent/store.py:422-429 | a request that has its message: sent again with its content it succeeds and changes nothing, with any other content it is a conflict, on both paths |
| `ConversationReceipts.KnownIntent` | src/problem_locator/agent/store.py:430-450 | a request that has an intent: other content is a conflict unless the target is gone; its own content is taken only routed under the key of the pending intent in the open current run |
| `ConversationReceipts.KnownFreeze` | src/problem_locator/agent/store.py:507-530 | freezing it again changes nothing: its own content is answered, other content is a conflict |
| `ConversationReceipts.KnownStop` | src/problem_locator/agent/store.py:868-877 | a known stop request changes nothing and is a conflict exactly for another run |
| `ConversationReceipts.AnsweredForEver` | src/problem_locator/agent/store.py:413-429 | over every run: once a request has its message, every later send of it is answered so in every later state until deletion |
| `ConversationReceipts.StopAnsweredForEver` | src/problem_locator/agent/store.py:868-877 | the same for stop requests |
| `ConversationReceipts.OneContentAlways` | src/problem_locator/agent/store.py:583-608 | over every run a message and an intent of one request have the same content |
| `ConversationReceipts.StopsAlways` | src/problem_locator/agent/store.py:868-886 | over every run a stop request has one receipt |
| `ConversationReceipts.FreshSubmit` | src/problem_locator/agent/store.py:413-487 | a new request is accepted exactly when its target is still there, its attachments are ready, and the open run has under 200 messages or it has text to open a new run; then exactly its message is added as QUEUED, its run is woken and nothing else changes |
| `ConversationReceipts.FreshFreeze` | src/problem_locator/agent/store.py:507-550 | the exact condition for freezing, and the row it adds |
| `ConversationReceipts.FreshStop` | src/problem_locator/agent/store.py:868-886 | a new stop gets the receipt its run calls for; an open run is asked to stop and its unfinished messages become UNUSED, an ended one is left alone |
| `ConversationEnds.ProjectMeaning` | src/problem_locator/agent/store.py:1463-1553 | whatever status a Case has, its open run shows it: FAILED, INTERRUPTED and CANCELLED close it as that, a result as COMPLETED or RUNNING by its archive, waiting and working Cases keep it open; the events say so and no other run is closed |
| `ConversationEnds.LogTellsEnds` | src/problem_locator/agent/store.py:1420-1438 | over every run until deletion: the log has run.completed exactly for closed runs, run.failed exactly for FAILED and run.interrupted exactly for INTERRUPTED ones |
| `ConversationEnds.ClosedOnlyBy` | src/problem_locator/agent/store.py:1420-1438 | over every run: what closes a run is the settling of its stop, a reported failure, a commit of its Case or a recovery, each with its own status |
| `ConversationEnds.CancelledOnlyBy` | src/problem_locator/agent/store.py:921-933 | in particular a run is cancelled only by settling its stop or because its Case was cancelled |
| `ConversationEnds.FailMeaning` | src/problem_locator/agent/store.py:1409-1418 | an open run fails or is interrupted as told, with its events and its messages given up; a settled run is left alone |
| `ConversationEnds.AdoptionEnds` | src/problem_locator/agent/store.py:1242-1258 | a message whose adoption ends is APPLIED exactly if it was accepted, UNUSED otherwise, final ones stay, and it is released |
| `ConversationUse.AppliedOnlyBy` | src/problem_locator/agent/store.py:1260-1303 | over every run: a message becomes APPLIED only because a worker marks it or ends its adoption as accepted, or because the core accepted the command it was handed to or whose batch names it |
| `ConversationUse.UnusedGives` | src/problem_locator/agent/store.py:1440-1445 | giving up makes exactly the unfinished messages of the run UNUSED |
| `ConversationUse.DeletionMeaning` | src/problem_locator/agent/store.py:948-982 | deletion stops exactly the runs without a report that are open or whose Case is not known to have ended, and gives up exactly their unfinished messages |
| `ConversationWork.IntakeMeaning` | src/problem_locator/agent/store.py:1091-1147 | when a batch is settled, what it covers, and what the run shows then for every combination of unread input, Case and questions |
| `ConversationWork.IdleStopMeaning` | src/problem_locator/agent/store.py:888-911 | the exact condition of the idle stop and its effect |
| `ConversationWork.RetargetMeaning` | src/problem_locator/agent/store.py:557-573 | when an intent follows the Case, and that nothing but its operation and key changes |
| `ConversationWork.FinishMeaning` | src/problem_locator/agent/store.py:575-581 | a live intent ends as reported, an ended one keeps its end |
| `ConversationWork.MarkMeaning` | src/problem_locator/agent/store.py:1193-1213 | the statuses a message can move to and when |
| `ConversationWork.RecordMeaning` | src/problem_locator/agent/store.py:1323-1338 | a dispatch is recorded once; again it is read by its own epoch or once completed, is interrupted for another epoch, and is a conflict for another command |
| `ConversationWork.EndedMeaning` | src/problem_locator/agent/store.py:1356-1364 | only the recording epoch ends a dispatch, and only while it is pending |
| `ConversationWork.AdoptMeaning` | src/problem_locator/agent/store.py:1215-1240 | when a message is tied to a dispatch, and to which |
| `ConversationWork.ExpectMeaning` | src/problem_locator/agent/store.py:1305-1313 | the creation key of a run is fixed once |
| `ConversationWork.EmitMeaning` | src/problem_locator/agent/store.py:1393-1407 | which progress and attachment events are shown, once each |
| `AgentStore.Transaction.Emit` | src/problem_locator/agent/store.py:338-355 | the append on the mutable transaction is the append of the specification |
| `AgentStore.Transaction.GiveUpMessages` | src/problem_locator/agent/store.py:1440-1445 | the loop over the messages of the run is the giving up of the specification |
| `AgentStore.Transaction.AcceptRestarts` | src/problem_locator/agent/store.py:583-608 | the loop over the intents is the specified pass, error included |
| `AgentStore.Transaction.AcceptCommittedAdoptions` | src/problem_locator/agent/store.py:1266-1303 | both loops are the specified passes, error included |
| `AgentStore.Transaction.ProjectOnRun` | src/problem_locator/agent/store.py:1463-1553 | all branches of the projection |
| `AgentStore.Store.SubmitMessage` | src/problem_locator/agent/store.py:413-487 | commits exactly what the specification of a submission gives or leaves the tables alone, keeps the invariant, answers a known request by its content, and accepts a new one exactly when it is welcome |
| `AgentStore.Store.FreezeRestart` | src/problem_locator/agent/store.py:507-550 | the same for freezing an intent; an existing intent is only answered, by its content |
| `AgentStore.Store.ProjectCommit` | src/problem_locator/agent/store.py:1447-1461 | the same for the projection of a Case commit; the open run then shows the Case, whatever its status |
| `AgentStore.Store.AskStop` | src/problem_locator/agent/store.py:868-886 | the same for a stop; a known request is answered by its run, a new one gets the receipt its run calls for |
| `AgentStore.Store.SettleStop` | src/problem_locator/agent/store.py:921-939 | the same for settling it |
| `AgentStore.Store.DeleteConversation` | src/problem_locator/agent/store.py:948-982 | the same for deletion, over all runs |
| `AgentStore.Store.SettleIntake` | src/problem_locator/agent/store.py:1091-1147 | the same for the end of a batch |
| `AgentStore.Store.RecoverAll` | src/problem_locator/agent/store.py:1561-1585 | the same for recovery, over all runs |
| `ClientSend.ChangedIsFinalIff` | src/problem_locator/agent/service.py:197-318 | for every answer of a send that its run has changed, each branch by its own reads and transactions at their times: the request is dead, no message and never one, exactly when the intent and the receipt at that branch say so |
| `ClientSend.NeverBoth` | examples/website-agent/conversation-input.js:26-36 | an input whose send was answered as changed and whose report is found ready is a message at some time exactly if it is one at that moment, and at no time when the answer was final |
| `ClientSend.StoppedBothIff` | src/problem_locator/agent/service.py:267-274 | for the answer that the run is over: message and follow-up both happen exactly when the request was a message when the run was read |
| `ClientSend.ReadyDecides` | src/problem_locator/agent/store.py:328-336 | once the report is ready no request becomes a message that was none by then |
| `ClientSend.NeverSent` | examples/website-agent/conversation-input.js:26 | an input that is only asked as a follow-up is a message at no time |
| `ClientSend.AcceptedIsMessage` | src/problem_locator/agent/service.py:197-318 | a send that is answered as accepted has become a message with its own content |
| `ClientSend.ResendIsAccepted` | src/problem_locator/agent/store.py:489-505 | every later send of it is answered as accepted, and other content under its identifier never is |
| `ClientSend.Calls` | examples/website-agent/conversation-input.js:26-36 | an attempt frozen with a ready report never sends a message, and a follow-up is asked only for a ready report or after a changed run |
| `ClientInput.DeadForever` | src/problem_locator/agent/store.py:422-450 | a dead request stays dead through every later step of every thread |
| `ConversationWitness.BothAfterStop` | src/problem_locator/agent/service.py:267-274 | a run that ends as message and follow-up: the control thread commits the intent and the run completes between the sender's two reads |
| `ConversationWitness.BothAfterRetarget` | src/problem_locator/agent/service.py:284-289 | another: the control thread retargets first, the sender's retarget is refused, and the restart is accepted afterwards |
| `ConversationWitness.BothAfterRefusal` | src/problem_locator/agent/service.py:305-306 | another: the control thread retargets and commits, and the sender's stale command is refused by the finished Case |
| `ConversationCases.OpenRunsHaveLiveCases` | src/problem_locator/agent/store.py:1447-1553 | in every reachable state the Case of a run that still takes input is known to the core and not ended |
| `ConversationCases.RunsKeepTheirCase` | src/problem_locator/agent/store.py:1447-1461 | a run keeps the Case it was bound to, over every run |
| `IntakeOnce.CalledAtMostOnce` | src/problem_locator/agent/service.py:938-978 | over all retries, hand-offs, crashes and restarts the model is called at most once for a message of a run, and only after the dispatch was recorded |
| `IntakeOnce.CrashedIsNeverCalled` | src/problem_locator/agent/service.py:939-942 | a dispatch recorded before a crash and not yet called is never called afterwards |
| `IntakeOnce.StepKeeps` | src/problem_locator/agent/service.py:726-783 | registration, deferral, resumption, lookup, recording, call, completion, crash and recovery each keep the invariant |
| `IntakeOnce.OneWorkerPerRun` | src/problem_locator/agent/service.py:737-745 | two workers never work on one run |
| `IntakeOnce.FreshIsCalled` | src/problem_locator/agent/service.py:938-978 | a message nobody has dispatched is called by the worker that finds it, completed, and only read from then on |
| `IntakeOnce.EnterIff` | src/problem_locator/agent/service.py:737-745 | a run is taken exactly if nobody works on it |
| `IntakeOnce.ParkedIsResumed` | src/problem_locator/agent/service.py:737-745 | a parked run is resumed under its token, is entered by nobody else, and is free once discarded |
| `IntakeOnce.LedgerAloneIsNotEnough` | src/problem_locator/agent/store.py:1323-1338 | without the registration the ledger lets two workers call, because it returns a pending dispatch of its own epoch without objection |
| `FileSha256.Sha256FileInThread` | examples/website-agent/file-sha256.js:65-113 | for every file below 2^50 bytes and every CPU chunk that is a positive multiple of 64 the result is the text of the SHA-256 of FIPS 180-4 |
| `FileSha256.Block` | examples/website-agent/file-sha256.js:71-89 | one block on the shared typed arrays is the hash computation of section 6.2.2 of FIPS 180-4 |
| `FileSha256.HashChunks` | examples/website-agent/file-sha256.js:91-104 | the chunk loop hashes all whole blocks and leaves the rest as the tail |
| `FileSha256.Ending` | examples/website-agent/file-sha256.js:106-110 | the last one or two blocks hold the tail, the one bit, zeros and the length |
| `FileSha256.PaddedFrom` | examples/website-agent/file-sha256.js:106-110 | they are exactly the padding of section 5.1.1 of FIPS 180-4 |
| `FileSha256.RotateIsRotr` | examples/website-agent/file-sha256.js:65 | the signed rotation agrees with ROTR on words |
| `FileSha256.PackedIsBigEndian` | examples/website-agent/file-sha256.js:72-75 | OR of shifted bytes is the big-endian word |
| `FileSha256.ExtendedIsSchedule` | examples/website-agent/file-sha256.js:76-80 | the signed sum stored into the Uint32Array is the schedule of the standard |
| `FileSha256.T1IsPlus` | examples/website-agent/file-sha256.js:83 | the exact double sum of signed terms agrees with addition mod 2^32 |
| `FileSha256.PaddedHex` | examples/website-agent/file-sha256.js:112 | toString and padStart give eight digits a word |
| `Fips180Constants.ConstantsAreCubeRoots` | examples/website-agent/file-sha256.js:55-64 | the sixty-four constants are the first 32 bits of the fractional parts of the cube roots of the first primes |
| `Fips180Constants.InitialIsSquareRoots` | examples/website-agent/file-sha256.js:68 | the initial hash value is that of the square roots |
| `Timing.AllocatedCauses` | src/problem_locator/journey_timing.py:479-526 | with the start not after the end each cause gets the number of instants at which it has the highest priority, all causes add up to the elapsed time, and system, waiting and unclassified time add up to it; the sum fails exactly when the start is after the end |
| `Timing.HighestPriorityWins` | src/problem_locator/journey_timing.py:492-503 | an instant has no cause iff no span covers it; otherwise its cause names exactly the labels of the highest priority there |
| `Timing.ClippedMarks` | src/problem_locator/journey_timing.py:152-170 | clipping to the window changes nothing inside it |
| `Timing.ConstantMeasure` | src/problem_locator/journey_timing.py:489-504 | between two boundaries a cause gains the whole slice or nothing |
| `Timing.NestedStageWins` | src/problem_locator/journey_timing.py:315-343 | a stage strictly inside another one of its Job gets strictly higher priority |
| `Timing.DepthIsCount` | src/problem_locator/journey_timing.py:315-327 | the depth of a stage is the number of stages of its Job that hold it and more |
| `WaitTime.SpansCoverWaiting` | src/problem_locator/journey_timing.py:203-253 | on a journey whose times never go back an instant is covered by a wait span exactly when a line has set WAITING_INPUT, WAITING_ATTACHMENT or INTERRUPTED, no ending event or other status has come since, and the status is not set anew before the wait ends |
| `WaitTime.WaitTimeIff` | src/problem_locator/journey_timing.py:203-343 | the waiting time is the number of instants at which the Case waits and no stage nested 60 deep goes on; it equals the total length of the wait spans exactly when no such stage goes on while the Case waits |
| `WaitTime.SixtyLevelsTakeWaitTime` | src/problem_locator/journey_timing.py:315-343 | a journey of one wait with 61 nested stages: the innermost reaches the priority of the wait, and the waiting time is less than the wait |
| `WaitTime.WaitsAreDisjoint` | src/problem_locator/journey_timing.py:203-253 | wait spans are disjoint and inside the journey |
| `WaitTime.CollectWaitSpans` | src/problem_locator/journey_timing.py:203-253 | the loop over the lines gives a span for every wait, finished or still on, and for nothing else, with its label, start and end |
| `Supersedes.ValidateSupersedes` | src/problem_locator/application/formalization.py:939-971 | accepts exactly when every target of a draft is known and the graph is acyclic |
| `Supersedes.Search.VisitAll` | src/problem_locator/application/formalization.py:958-971 | the depth-first search terminates and reports a circle exactly when there is one |
| `Supersedes.WithinStaysAcyclic` | src/problem_locator/application/formalization.py:939-971 | dropping nodes and adding nodes without targets closes no circle |
| `DiagnosisLaws.CircleIff` | src/problem_locator/application/formalization.py:1008-1031 | an accepted delta leaves a circle exactly when the graph of the items it keeps, its user facts and its drafts has one, which is known before the call |
| `DiagnosisLaws.NeverCyclicIff` | src/problem_locator/application/formalization.py:1008-1031 | over every history of accepted deltas: no state has a circle exactly when the first has none and none of these graphs had one |
| `DiagnosisLaws.NeverCyclic` | src/problem_locator/application/formalization.py:1008-1031 | in particular none appears while user facts supersede nothing |
| `DiagnosisLaws.UserFactsCanCloseACircle` | src/problem_locator/application/formalization.py:1008-1031 | a circle that is let in: two added user facts that supersede each other |
| `DiagnosisLaws.IdsStayDistinct` | src/problem_locator/application/formalization.py:1013-1030 | identifiers stay distinct across all five lists before the result is even validated |
| `DiagnosisLaws.HypothesesConserved` | src/problem_locator/application/formalization.py:1061-1110 | active and rejected hypotheses together grow by exactly the added ones |
| `DiagnosisLaws.UpdatesAreLocal` | src/problem_locator/application/formalization.py:1061-1076 | a hypothesis gets exactly the change that names it, whatever the order of the changes |
| `DiagnosisMeaning.DeltaMeaning` | src/problem_locator/application/formalization.py:987-1224 | from an acceptable state: exactly which deltas are accepted, and what the result holds list by list: statement, status and evidence of every changed, kept and new item, requirements with their sources, evidence, candidate and specification |
| `DiagnosisMeaning.AssembledMeaning` | src/problem_locator/application/formalization.py:1036-1207 | the steps succeed exactly for well-formed deltas: every binding names evidence, every change an active hypothesis or open question, every fulfillment an open requirement |
| `DiagnosisMeaning.ChangedMeaning` | src/problem_locator/application/formalization.py:908-927 | a changed item has the new statement where one is given, else its own, and its references extended by exactly the evidence the bindings name |
| `DiagnosisMeaning.DraftsMeaning` | src/problem_locator/application/formalization.py:879-899 | a new item carries statement and provenance of its draft and exactly the evidence its bindings name |
| `DiagnosisMeaning.ResolveMeaning` | src/problem_locator/application/formalization.py:646-661 | bindings resolve exactly when each names evidence, to that evidence, each once |
| `DiagnosisMeaning.HypothesesMeaning` | src/problem_locator/application/formalization.py:1061-1110 | every hypothesis is kept, changed or moved as the delta says, and no other one appears |
| `DiagnosisMeaning.FulfillAllMeaning` | src/problem_locator/application/formalization.py:1146-1170 | a fulfilled requirement has the sources of its fulfillment, the others are as they were |
| `DiagnosisMeaning.CandidateMeaning` | src/problem_locator/application/formalization.py:810-849 | when a candidate is installed or moved, and that nothing but its status changes |
| `DiagnosisLaws.RequirementsOnlyFulfilled` | src/problem_locator/application/formalization.py:1146-1179 | old requirements keep their place and only move from OPEN to FULFILLED; new ones follow |
| `DiagnosisLaws.EvidenceExtends` | src/problem_locator/application/formalization.py:1181-1187 | evidence is a duplicate-free extension by what the delta binds |
| `DiagnosisLaws.RevisionStep` | src/problem_locator/application/formalization.py:1209-1224 | the revision rises by one exactly when the content changed |
| `DiagnosisLaws.NewItemsCarryRevision` | src/problem_locator/application/formalization.py:1046-1059 | new items carry the revision of the result |
| `Diagnosis.MergeRefs` | src/problem_locator/application/formalization.py:902-905 | references are extended, in place, without repeats |
| `DiagnosisDelta.ApplyDiagnosisStateDelta` | src/problem_locator/application/formalization.py:987-1224 | the ten steps with their loops and the search give what the specification gives, errors included, and the state the delta describes |
| `Workers.WorkersAreBounded` | src/problem_locator/agent/attachment_worker.py:51-117 | over all interleavings at most two unfinished tasks and one a conversation; a lease is given back exactly once, when its task is done; a conversation under cleanup has no task and no user; leases are counted exactly |
| `Workers.ShutdownIsFinal` | src/problem_locator/agent/attachment_worker.py:141-156 | after shutdown only running tasks are left, none is added, and once all are done all stay done in every later state |
| `Workers.ReservedIff` | src/problem_locator/agent/attachment_worker.py:51-65 | a task is reserved exactly when the pool is not stopping, fewer than two tasks are unfinished, none of them of this conversation, and it is not being cleaned |
| `Workers.TakenInOrder` | src/problem_locator/agent/attachment_worker.py:84-131 | submitted tasks run in their order |
| `Workers.StepKeeps` | src/problem_locator/agent/attachment_worker.py:51-139 | every lock region of workers, guard and cleanup keeps the invariant |
| `AttachmentWorkers.Slots.ReserveSlot` | src/problem_locator/agent/attachment_worker.py:51-65 | the region on the objects is the specified step |
| `AttachmentWorkers.Slots.SubmitTask` | src/problem_locator/agent/attachment_worker.py:84-96 | the same for submission |
| `AttachmentWorkers.Slots.TakeNext` | src/problem_locator/agent/attachment_worker.py:124-131 | the same for a thread taking a task |
| `AttachmentWorkers.Slots.Discard` | src/problem_locator/agent/attachment_worker.py:104-117 | the same for the end of a task |
| `AttachmentWorkers.Slots.BeginShutdown` | src/problem_locator/agent/attachment_worker.py:141-150 | the same for shutdown, over all tasks |
| `AttachmentWorkers.UsageGuard.Enter` | src/problem_locator/agent/usage.py:17-25 | refused exactly during cleanup |
| `AttachmentWorkers.UsageGuard.AcquireCleanupIfIdle` | src/problem_locator/agent/usage.py:40-47 | granted exactly when nobody uses or cleans the conversation |
| `Commands.AppliedExactlyOnce` | src/problem_locator/application/external_commands.py:1074-1224 | over any concurrent commits and resubmissions a command mutates the state at most once, and once if any submission succeeded |
| `Commands.NoLostUpdate` | src/problem_locator/storage/state_repository.py:415-470 | in every state of every run a Case is the fold of all commands applied to it and all other commits in the order of their commits, one revision each; nothing applied is overwritten by a commit prepared on an older Case |
| `Commands.CommitStandsOn` | src/problem_locator/storage/state_repository.py:427-445 | a commit that succeeds replaces the Case of the state just before by what the planning makes of that Case, and its receipt names the new revision |
| `Commands.UndisturbedSucceeds` | src/problem_locator/application/external_commands.py:284-315 | left alone, an execution succeeds exactly if it is a replay or can be planned |
| `Commands.ThreeAttempts` | src/problem_locator/application/external_commands.py:1745-1750 | a revision conflict ends an execution only in its third attempt |
| `Commands.RunsMeddle` | src/problem_locator/storage/state_repository.py:427-431 | what `Execute` supposes of other executions holds between any two states of a run |
| `Commands.OneReceipt` | src/problem_locator/application/idempotency.py:48-73 | all successes under one operation and key are of one request and return one receipt |
| `Commands.OtherBodyChangesNothing` | src/problem_locator/application/external_commands.py:1209-1224 | over any run: an execution whose key is ever recorded with another body never succeeds, and none of its steps at any time changes the store |
| `Commands.IdsAreFixed` | src/problem_locator/application/external_commands.py:284-315 | the identifiers of an execution are the same in all its attempts |
| `Commands.NeverAFourthAttempt` | src/problem_locator/application/external_commands.py:1745-1750 | an execution ends within three attempts |
| `Commands.Repository.Execute` | src/problem_locator/application/external_commands.py:293-451 | the loop of three attempts against a repository others change between read and commit: at most one swap, which applies the command to the Case as the commit met it; a replay returns the recorded receipt; undisturbed it succeeds; the loop never falls through |
| `EventReader.CutsDoNotMatterIff` | examples/website-agent/browser-client.js:234-257 | all ways to cut a text into chunks give what a batch reading of the whole gives, exactly when up to the first frame that does not decode nothing held of a frame with a trailing carriage return is over the limit |
| `EventReader.OneTextTwoCuts` | examples/website-agent/browser-client.js:243-256 | a text that is read under one cut and refused under another: a data line that fills the frame, cut after its carriage return |
| `EventReader.AlwaysRising` | examples/website-agent/browser-client.js:248-253 | delivered sequences rise strictly above the starting cursor |
| `EventReader.Events` | examples/website-agent/browser-client.js:239-257 | the nested loops are the reader of the specification |
| `EventStream.RoundTrip` | examples/website-agent/browser-client.js:241-254 | whatever is written as events, with or without the space and with either line end, is taken apart into those events |
| `EventStream.JoinedLines` | examples/website-agent/browser-client.js:248-254 | the data lines of an event are joined one below the other |
| `EventStream.DeliveredMeaning` | examples/website-agent/browser-client.js:246-253 | delivered are exactly the events above the cursor and above all before them, up to the first that does not decode |
| `AuditBundle.BuildAuditBundle` | src/problem_locator/application/audit_bundle.py:82-160 | a built bundle is within the limit and drops the shortest sufficient suffix of the optional sources; it fails exactly for repeated paths, too much required material, or when no suffix suffices |
| `AuditBundle.BundleIsFaithful` | src/problem_locator/application/audit_bundle.py:97-153 | every required source is in it, every record adds up to the original size, and what is dropped is listed and absent |
| `AuditBundle.RecordAddsUp` | src/problem_locator/application/audit_bundle.py:50-61 | retained and omitted bytes add up; only logs over 2 MiB are trimmed, to their first and last MiB, and the listed range is what is missing |
| `AuditBundle.CoreIsRequired` | src/problem_locator/application/audit_bundle.py:97-120 | the limit of the core counts what is retained of the required sources and of no other |

## Left out

- Several conversations in one database: the model has one; requests, runs and Cases of others never meet its rows.
- Legacy dedupe keys without a run prefix, pruning of old events, titles, notices, failure texts and timestamps; whether
  a waiting run has been idle long enough is a free choice of the step.
- Continuation runs, feedback, memory cards, follow-up storage and the capture of report inputs: they hang on these
  transactions but change none of the modelled columns.
- `generic_adopted_message_ids`, which only later prompts read.
- `bind_case`, which the service never calls.
- The check of attachments before an intent is frozen and the choice between the two operations: a send may freeze either.
- ClientSend.ChangedIsFinalIff: what the Case looks like after a refused command is free in every round, which only allows
  more answers than the service gives.
- ConversationSafety.StepKeeps: the steps of the service are its transactions; the order in which one thread takes them
  is left free, which only allows more runs than the service has.
- AgentStore.Store: retargeting and finishing an intent, the idle stop, message statuses, adoptions, dispatches, progress
  events and failures are single updates and are modelled on values only.
- FileSha256.Sha256FileInThread: cancellation, progress reports, yielding and the worker around the computation; a file is
  the bytes it holds, however they are read.
- Timing.AllocatedCauses: times are whole milliseconds and durations exact; the order of the causes, their shares and the
  source lines are not modelled, and the joined label of concurrent causes is the set of its labels.
- The pairing of stage starts and ends, Logparse and Job spans: the sweep and the depth are proved for every list of spans.
- WaitTime.CollectWaitSpans: as in the code, a second status event with the same waiting status starts the wait anew, and
  the time before it is not counted as waiting.
- DiagnosisDelta.ApplyDiagnosisStateDelta: identifiers are numbers in their text order, a patched problem specification is
  given as the value after the patch, and the validators of single items and candidates beyond those of the state are not
  modelled.
- The transition planning of commands: it is an arbitrary function of the Case, the command and the drawn identifiers.
- Commands.Repository.Execute: what other executions commit between a read and a commit is handed in as the store they
  leave behind.
- Workers.WorkersAreBounded: a reservation is submitted at most once by the caller that received it, as the service does.
- The manifest and the file work of cleanup, disk capacity, quarantine moves.
- EventReader.Events: the decoding of bytes to text is that of the platform; parsing and validation of one event are an
  arbitrary function; aborting and the outcome of the callback are not modelled.
- AuditBundle.BuildAuditBundle: the check of path characters, the digests and the order inside the archive; the canonical
  text of the manifest is an arbitrary function and an archive has the size of stored entries without ZIP64.
