# Verified model of the Ironwood migration on iOS

A Dafny 4.11 model of the parts of the Vizor wallet that carry an Ironwood migration while
nobody watches, and proofs of what they keep. `dafny verify dfyconfig.toml` checks everything.

## The outbox

A migration's transactions are signed ahead of time and put into a persisted outbox. A runner
that the system may kill at any instant recovers interrupted work, asks one lightwalletd
endpoint for the tip, selects one due transaction, sends it and records the outcome, each in a
durable update of its own. The foreground app stages, arms, acknowledges and discards meanwhile,
and mutations that must not race a send take a lease and wait for the runner to drain.

- `Common`, `Text`, `Heights`: optional values, string order and turn-taking, and the height
  arithmetic: canonical expiry, the feasibility test, the re-spreading of overdue transactions.
- `OutboxModel`: the records and every mutation of them as a function on values.
- `OutboxSnapshot`: the snapshot as the object it is, a class whose methods change its fields in
  place with the loops of the Swift code, each proved against the function of the same purpose.
- `OutboxInvariants`, `OutboxKeeps`, `OutboxEdits`, `OutboxAnnouncements`, `OutboxSchedule`,
  `OutboxRotation`: what each operation keeps and decides.
- `OutboxSystem`: the state machine of runner, foreground, gate and crashes, with a log of sends.
- `OutboxSafety`, `OutboxReachable`: its invariant, and that every action keeps it.
- `OutboxWindow`: what breaks into a submission, and which edits do not.
- `OutboxTheorems`, `OutboxTxids`, `OutboxNotices`: results about every run.
- `OutboxRunner`, `OutboxOutcomes`: the runner over gate, store and transport objects, proved to
  take exactly the state machine's steps, and what each of its outcomes means.
- `OutboxForgottenEndpoint`, `OutboxDroppedRecord`: two runs that end where one would not expect.

A throwing mutation leaves the store unchanged. A write can also fail after its effect (the
attributes are set after the atomic replacement), so a commit has three outcomes.

## The other parts

- `Keychain`: the move of secrets to device-only protection through a staging service, with a
  store whose every call may fail before or after taking effect, and a history of its states.
- `LedgerModel`, `LedgerSafety`, `LedgerTheorems`, `LedgerClosing`: the one-slot exchange protocol
  of any number of handlers sharing one Bluetooth transport, as functions on what one handler
  sees, and over all runs; `LedgerHandler`, `LedgerDriver`: the handler as a class, and a heap of
  them that takes exactly a run's steps; `LedgerUfvk`: the viewing-key loop.
- `Notifications`, `NotificationCoordinator`: the batching of preparation alerts, as functions
  and as a class.
- `WireCodec`: varints, gRPC frames and the two response parsers (Protocol Buffers Encoding,
  section "Base 128 Varints"), with a reference printer.
- `Preparation`, `PreparationTracker`: confirmation counts and the progress bar, and whole runs of
  the tracker over all accounts.

## What the proofs found

- Passing `validateReschedulingAfterAcceptance` does not by itself make the later re-spreading
  succeed (`Heights.FeasibleIsNotEnough`). Both conditions are proved exactly, and the runner is
  safe because the re-sign pass before it leaves all due peers with one common expiry.
- A pending verified announcement does not by itself keep its endpoint in the rotation.
  `OutboxForgottenEndpoint.PendingVerifiedCanLoseItsEndpoint` gives a run from the empty store
  that ends so, `OutboxRotation.PendingVerifiedKeepsEndpoint` the exact condition.
- Acknowledging the receipts of failed transactions removes their batch once none of its receipts
  is left, also while another of its transactions is being sent, which then goes out with no record
  of it. `OutboxDroppedRecord.SentCanGoUnreported` gives a run from the empty store,
  `OutboxWindow.SelectedIsDroppedExactly` the exact condition. While a sent record stays stored
  it is always reported (`OutboxTheorems.SentIsReported`).
- Resolving a notification scope can forget what was accepted for another one
  (`Notifications.ResolvingForgetsAnother`), exactly when the other's name continues this one's
  with a bar or this name is the other's key (`Notifications.ResolveForgetsTheScope`). The names
  the app builds, `network:account:run` and `global`
  (BackgroundMigrationPreparationManager.swift:2546-2552, 2376), add no bar, and without one only
  its own are forgotten (`Notifications.BarlessResolveForgetsOnlyItsOwn`).

## Model

| member | source | states |
|---|---|---|
| Heights.CanonicalExpiryIsTheWindowMultiple | ios/Runner/BackgroundMigrationOutbox.swift:1159-1166 | The canonical expiry is the one multiple of 34,560 more than one and at most two windows above the tip; it is missing exactly when that multiple exceeds 64 bits |
| Heights.SampleDelay | ios/Runner/BackgroundMigrationOutbox.swift:1169-1181 | Whatever is drawn, the delay is at least 1 and at most the limit |
| Heights.SortHeights | ios/Runner/BackgroundMigrationOutbox.swift:850-870 | Sorting permutes and orders, so the test looks at every overdue peer |
| Heights.FitsExactlyWhenFeasible | ios/Runner/BackgroundMigrationOutbox.swift:850-870 | The validation loop passes if and only if some assignment of distinct heights above the tip and below each expiry exists (soundness, and completeness by counting slots) |
| Heights.PlanSucceedsExactly | ios/Runner/BackgroundMigrationOutbox.swift:1075-1105 | The re-spreading walk over peers sorted by expiry fails exactly when there is a peer and the smallest expiry is at most tip + n; otherwise its heights rise strictly, lie above the tip and below each expiry, with gaps of 1 to the limit, whatever the draws, and nothing saturates |
| Heights.FeasibleIsNotEnough | ios/Runner/BackgroundMigrationOutbox.swift:850-870 | At tip 200 the expiries 202 and 300 pass the validation, yet re-spreading throws |
| Heights.CommonExpiryFitsExactly | ios/Runner/BackgroundMigrationOutbox.swift:850-870 | For peers of one common expiry the validation passes exactly when everyone has room, which is what re-spreading needs |
| OutboxSchedule.RescheduleSucceedsExactly | ios/Runner/BackgroundMigrationOutbox.swift:1050-1107 | Re-spreading a batch succeeds exactly when its timing is valid and every overdue peer expires above tip + n: no shuffle or delay matters |
| OutboxSchedule.RescheduleSpreads | ios/Runner/BackgroundMigrationOutbox.swift:1050-1130 | When it succeeds, only the overdue armed peers change, only in their schedule; the new heights rise strictly with gaps of 1 to the limit, above the tip and below each expiry |
| OutboxSchedule.AcceptanceSucceedsExactly | ios/Runner/BackgroundMigrationOutbox.swift:907-944 | Recording an acceptance succeeds exactly when the item is being submitted, the timing is valid and its overdue peers have room |
| OutboxSchedule.ValidationDecidesFeasibility | ios/Runner/BackgroundMigrationOutbox.swift:850-870 | The test before the broadcast decides exactly whether all overdue peers can still be given heights of their own |
| OutboxSchedule.AcceptanceCannotFailAfterBroadcast | ios/Runner/BackgroundMigrationOutbox.swift:750-944 | With every due peer canonical and the test passed, recording the acceptance never throws, whatever the random draws |
| OutboxSnapshot.OutboxRecords.Stage | ios/Runner/BackgroundMigrationOutbox.swift:211-303 | In place: a new record, a refused one, or a restaged one with its new items merged and its notices re-armed |
| OutboxSnapshot.OutboxRecords.MergeLoop | ios/Runner/BackgroundMigrationOutbox.swift:236-300 | The merge loop refuses exactly a clash with a stored item, and appends exactly the items that are new |
| OutboxSnapshot.OutboxRecords.ArmBatch | ios/Runner/BackgroundMigrationOutbox.swift:305-331 | Arms exactly the named items whose digests match, or throws and changes nothing |
| OutboxSnapshot.OutboxRecords.RecoverBatch | ios/Runner/BackgroundMigrationOutbox.swift:333-381 | Re-arms a stored batch of the same scope and transactions, requeueing interrupted submissions, or refuses |
| OutboxSnapshot.OutboxRecords.RecoverInterruptedSubmissions | ios/Runner/BackgroundMigrationOutbox.swift:412-428 | Every interrupted submission becomes armed again, counted and backed off |
| OutboxSnapshot.OutboxRecords.NextEndpointForInspection | ios/Runner/BackgroundMigrationOutbox.swift:430-449 | Hands out the endpoint after the last inspected one, in sorted order, and remembers it |
| OutboxSnapshot.OutboxRecords.RetireLoop | ios/Runner/BackgroundMigrationOutbox.swift:721-787 | The expiry and re-sign passes retire exactly the items of the endpoint they should, one receipt each |
| OutboxSnapshot.OutboxRecords.SelectDue | ios/Runner/BackgroundMigrationOutbox.swift:789-838 | Chooses the next account in turn and its earliest due item, and moves the cursor |
| OutboxSnapshot.OutboxRecords.ValidateReschedulingAfterAcceptance | ios/Runner/BackgroundMigrationOutbox.swift:850-870 | The loop over sorted expiries throws exactly when the peers do not fit |
| OutboxSnapshot.OutboxRecords.RecordUncertain | ios/Runner/BackgroundMigrationOutbox.swift:872-891 | A lost submission is armed again, counted and backed off |
| OutboxSnapshot.OutboxRecords.RecordCancelledBeforeSubmission | ios/Runner/BackgroundMigrationOutbox.swift:893-905 | A submission that never reached the transport is armed again with its attempt count unchanged |
| OutboxSnapshot.OutboxRecords.SpreadLoop | ios/Runner/BackgroundMigrationOutbox.swift:1075-1105 | The in-place loop writes exactly the planned heights to exactly the planned peers, or fails exactly when the plan does |
| OutboxSnapshot.OutboxRecords.RescheduleOverdueItems | ios/Runner/BackgroundMigrationOutbox.swift:1050-1107 | Shuffles, orders by expiry and re-spreads the overdue peers, or throws |
| OutboxSnapshot.OutboxRecords.RecordAccepted | ios/Runner/BackgroundMigrationOutbox.swift:907-944 | Accepts the item with its receipt and re-spreads its peers in one mutation; when that throws, the caller discards the mutated copy |
| OutboxSnapshot.OutboxRecords.RecordRejected | ios/Runner/BackgroundMigrationOutbox.swift:946-977 | Rejects the one item, disarms its batch and drops its proof watch, and adds its receipt |
| OutboxSnapshot.OutboxRecords.AcknowledgeReceipts | ios/Runner/BackgroundMigrationOutbox.swift:979-1006 | Removes exactly the acknowledged receipts, their items, the batches of an acknowledged failure with no receipt left, and the batches left empty |
| OutboxSnapshot.OutboxRecords.DiscardBatch | ios/Runner/BackgroundMigrationOutbox.swift:1008-1022 | Removes an untouched batch, reports a missing one, refuses one with delivery state |
| OutboxSnapshot.OutboxRecords.Revoke | ios/Runner/BackgroundMigrationOutbox.swift:1024-1039 | Removes an account's batches, receipts and announcement log entries |
| OutboxSnapshot.OutboxRecords.RecordVerifiedProofReadiness | ios/Runner/BackgroundMigrationOutbox.swift:527-555 | Owes the verified announcement to the earliest waiting batch of the run, once |
| OutboxSnapshot.OutboxRecords.AcknowledgeProofReadyNotification | ios/Runner/BackgroundMigrationOutbox.swift:577-597 | Turns a verified announcement that is owed into one that was made, or throws |
| OutboxSnapshot.OutboxRecords.MarkUnverifiedProofReadyNoticeIfNeeded | ios/Runner/BackgroundMigrationOutbox.swift:599-624 | Owes the height notice of an armed, watching batch unless any announcement of it is owed or was made |
| OutboxSnapshot.OutboxRecords.AcknowledgeUnverifiedProofReadyNotice | ios/Runner/BackgroundMigrationOutbox.swift:648-660 | Turns a height notice that is owed into one that was made, or throws |
| OutboxSnapshot.OutboxRecords.AcknowledgeBroadcastCompleteNotification | ios/Runner/BackgroundMigrationOutbox.swift:697-719 | Logs and settles the completion notice, and prunes a batch left without items |
| OutboxEdits.StageKeepsValid | ios/Runner/BackgroundMigrationOutbox.swift:211-303 | With item ids unused by other batches, staging keeps every invariant of the records |
| OutboxEdits.RestagingIsIdempotent | ios/Runner/BackgroundMigrationOutbox.swift:211-303 | Staging the same batch again after a success leaves the snapshot exactly as after the first |
| OutboxEdits.AcknowledgeKeepsValid | ios/Runner/BackgroundMigrationOutbox.swift:979-1006 | Acknowledging any set of receipts keeps receipts and terminal items in one-to-one correspondence |
| OutboxEdits.UnacknowledgedRecordSurvives | ios/Runner/BackgroundMigrationOutbox.swift:979-1006 | A receipt that is not acknowledged keeps its item stored, unchanged |
| OutboxEdits.DiscardKeepsValid | ios/Runner/BackgroundMigrationOutbox.swift:1008-1022 | Discarding keeps every invariant |
| OutboxEdits.RevokeKeepsValid | ios/Runner/BackgroundMigrationOutbox.swift:1024-1039 | Revocation keeps every invariant |
| OutboxKeeps.RetireKeepsValid | ios/Runner/BackgroundMigrationOutbox.swift:721-787 | Expiry and re-sign passes keep every invariant: one new receipt per retired item, none for another |
| OutboxKeeps.AcceptedKeepsValid | ios/Runner/BackgroundMigrationOutbox.swift:907-944 | Recording an acceptance keeps every invariant, re-spreading included |
| OutboxKeeps.RejectedKeepsValid | ios/Runner/BackgroundMigrationOutbox.swift:946-977 | Recording a rejection keeps every invariant |
| OutboxKeeps.RecoverBatchKeepsValid | ios/Runner/BackgroundMigrationOutbox.swift:333-381 | Recovery keeps every invariant |
| OutboxAnnouncements.AcknowledgeBroadcastCompleteKeepsValid | ios/Runner/BackgroundMigrationOutbox.swift:697-719 | Settling the completion notice, pruning included, keeps every invariant |
| OutboxReachable.NextKeeps | ios/Runner/BackgroundMigrationOutboxRunner.swift:35-317 | Every action of the runner, the foreground, the gate, and a crash at any point keeps the system invariant |
| OutboxReachable.ReachableIsOk | ios/Runner/BackgroundMigrationOutboxRunner.swift:35-317 | The system invariant holds after every run of actions |
| OutboxReachable.SelectStepChooses | ios/Runner/BackgroundMigrationOutboxRunner.swift:119-160 | The selection update leaves exactly one submission, of a due unexpired item with the canonical expiry, whose acceptance can be recorded |
| OutboxTheorems.ConservationOverRuns | ios/Runner/BackgroundMigrationOutbox.swift:979-1006 | In every reachable state receipts and terminal items correspond one to one, with matching outcome |
| OutboxTheorems.ReceiptsFindTheirTransaction | ios/Runner/BackgroundMigrationOutboxChannel.swift:119-153 | Every reported receipt finds its raw transaction, the bytes of its item, whose digest is the stored one |
| OutboxTheorems.SentIsReported | ios/Runner/BackgroundMigrationOutboxChannel.swift:155-179 | Over every run with crashes and edits anywhere, whatever was handed to the transport while stored and still is stored is reported as attempted |
| OutboxTheorems.SentWhileStored | ios/Runner/BackgroundMigrationOutboxChannel.swift:155-179 | The set used there is the log of hand-overs: an id sent once stays in it while its record stays stored |
| OutboxTheorems.HandedOverBytesAreReported | ios/Runner/BackgroundMigrationOutboxChannel.swift:155-179 | From the hand-over on, while the record stays stored, it holds the bytes that were sent and its transaction is reported |
| OutboxTheorems.CancelledIsNotReported | ios/Runner/BackgroundMigrationOutboxRunner.swift:343-352 | A selected item cancelled before the transport and never counted before is armed and not attempted: its txid is reported exactly when another record of the run is attempted under the same txid |
| OutboxTheorems.ListedExactly | ios/Runner/BackgroundMigrationOutboxChannel.swift:155-179 | A txid is in the report exactly when some stored record of the run is attempted under it |
| OutboxTxids.ReachableTxidsAreDistinct | ios/Runner/BackgroundMigrationOutbox.swift:211-303 | In every reachable state no batch stores one txid twice |
| OutboxTxids.CancelledInOnlyBatchIsNotReported | ios/Runner/BackgroundMigrationOutboxRunner.swift:343-352 | When the run has no other batch, the txid of the item cancelled before the transport is absent from the report |
| OutboxDroppedRecord.SentCanGoUnreported | ios/Runner/BackgroundMigrationOutbox.swift:979-1006 | A run, for every digest and answer, after which a transaction was handed over and the report is empty: the batch went with an acknowledged receipt while it was being sent |
| OutboxWindow.SelectedIsDroppedExactly | ios/Runner/BackgroundMigrationOutbox.swift:979-1006 | Of all edits only an acknowledgement takes the record being sent away, and exactly when it names a failure receipt of its batch and leaves no receipt of that batch |
| OutboxWindow.OtherEditsDoNotBreakIn | ios/Runner/BackgroundMigrationOutboxRunner.swift:119-317 | An edit of another batch, of a notice or of the receipts of other batches neither removes the record being sent nor breaks into its window |
| OutboxWindow.DisturbedExactly | ios/Runner/BackgroundMigrationOutboxRunner.swift:119-317 | The state records exactly whether, since the last recovery, some action broke in: a write that failed, a tip without a canonical expiry, a crash in the window, or an edit of the items of the batch being sent from |
| OutboxTheorems.EverySendIsSafe | ios/Runner/BackgroundMigrationOutboxRunner.swift:119-233 | Each run sends at most once, and only a due, unexpired item with the canonical expiry of the observed tip |
| OutboxTheorems.OneSubmissionAtATime | ios/Runner/BackgroundMigrationOutbox.swift:840-848 | At most one item is ever being submitted |
| OutboxTheorems.RecordIdentityOverRuns | ios/Runner/BackgroundMigrationOutbox.swift:1109-1130 | From staging to removal an item keeps its bytes, digest, txid, part, anchor and expiry, under the same batch; a terminal one never changes |
| OutboxTheorems.TerminalIsNeverResent | ios/Runner/BackgroundMigrationOutbox.swift:789-848 | A terminal item, in particular an accepted one, is never sent again while it stays stored |
| OutboxTheorems.DrainedIsSettled | ios/Runner/BackgroundMigrationOutboxExecutionGate.swift:36-50 | When the wait has returned to a lease holder and no action broke into the last submission, no run is on, nothing is being submitted, and every send of a stored item has a persisted outcome |
| OutboxTheorems.LeaseExcludesRuns | ios/Runner/BackgroundMigrationOutboxExecutionGate.swift:19-73 | While a drained lease is held no action starts a run or sends |
| OutboxTheorems.UndisturbedRunSettles | ios/Runner/BackgroundMigrationOutboxRunner.swift:42-316 | Outside the window of a submission nothing is being submitted, unless an action broke in since the last recovery |
| OutboxTheorems.DiscardedWasNeverSent | ios/Runner/BackgroundMigrationOutbox.swift:1008-1022 | A batch can be discarded only while no item of it still stored was ever sent |
| OutboxTheorems.NoWorkMeansNoEndpoint | ios/Runner/BackgroundMigrationManager.swift:1059-1072 | When the manager sees no runnable work, a run would find no endpoint to inspect |
| OutboxNotices.CompleteConfirmedOnce | ios/Runner/BackgroundMigrationOutbox.swift:662-719 | Between revocations or a full removal, the completion notice is confirmed at most once per batch id, pruning and restaging included |
| OutboxNotices.ProofAnnouncedOnce | ios/Runner/BackgroundMigrationOutbox.swift:527-660 | Per proof height watched, at most one verified announcement and at most one height notice are confirmed |
| OutboxRotation.PendingVerifiedKeepsEndpoint | ios/Runner/BackgroundMigrationOutbox.swift:430-449 | A pending verified announcement of an armed batch has its endpoint in the rotation exactly when the batch watches a proof height, has an armed item, or shares the endpoint with a batch in the rotation |
| OutboxForgottenEndpoint.PendingVerifiedCanLoseItsEndpoint | ios/Runner/BackgroundMigrationOutbox.swift:430-449 | A run of nine actions, for every digest, that ends with an armed batch whose verified announcement is pending at an endpoint outside the rotation |
| OutboxRotation.EndpointsAreTheRotation | ios/Runner/BackgroundMigrationOutbox.swift:430-449 | The rotation is exactly the endpoints with armed work or an awaited proof |
| OutboxRotation.EndpointRotationIsFair | ios/Runner/BackgroundMigrationOutbox.swift:430-449 | With the endpoints unchanged, as many consecutive inspections as endpoints visit each exactly once |
| OutboxRotation.ScopeRotationIsFair | ios/Runner/BackgroundMigrationOutbox.swift:789-838 | With the accounts unchanged, consecutive selections serve each exactly once |
| OutboxRotation.SelectDueIsComplete | ios/Runner/BackgroundMigrationOutbox.swift:789-838 | Nothing is selected exactly when no armed batch has a due, unexpired, not backed-off item; otherwise the choice is the earliest such item of its batch |
| OutboxRotation.NothingToDoBefore | ios/Runner/BackgroundMigrationOutbox.swift:451-463 | Below the next action height a wake finds nothing to send and no proof to announce |
| Text.CursorVisitsEachOnce | ios/Runner/BackgroundMigrationOutbox.swift:430-449 | The cursor rule, started from any cursor, visits every member of an unchanged set exactly once |
| OutboxRunner.RunOnceIsSafe | ios/Runner/BackgroundMigrationOutboxRunner.swift:35-317 | One call keeps the system invariant, sends at most once, and leaves nothing being submitted when no write failed and the tip has a canonical expiry |
| OutboxRunner.RunOnce | ios/Runner/BackgroundMigrationOutboxRunner.swift:35-317 | A pass over the gate, store and transport objects takes exactly the steps of the state machine and returns exactly the outcome prescribed, for every way a write or a read of the store can fail |
| OutboxOutcomes.SendsExactly | ios/Runner/BackgroundMigrationOutboxRunner.swift:119-233 | A call sends exactly when it reaches a tip, selects, its writes commit and it is not cancelled first; then it sends that one transaction |
| OutboxOutcomes.WaitingMeans | ios/Runner/BackgroundMigrationOutboxRunner.swift:119-317 | Waiting or no work: nothing was sent, and the height returned is the next with something to do at the endpoint inspected, or there is none |
| OutboxOutcomes.AcceptedMeans | ios/Runner/BackgroundMigrationOutboxRunner.swift:253-290 | Accepted: one transaction was sent, and it is stored as accepted with its receipt |
| OutboxOutcomes.NeedsUserActionMeans | ios/Runner/BackgroundMigrationOutboxRunner.swift:35-317 | Asking for the user: the transaction sent is stored as rejected with its receipt, or nothing was sent and an item failed for good at this tip, or a mutation threw, or the store failed for good |
| OutboxOutcomes.InconclusiveMeans | ios/Runner/BackgroundMigrationOutboxRunner.swift:35-317 | Cancelled or unavailable: if anything was sent, the transport failed in just that way, or the store failed for now when recording the answer |
| OutboxRunner.ExecutionGate.TryBeginRun | ios/Runner/BackgroundMigrationOutboxExecutionGate.swift:19-25 | Admits a run exactly when none is on and no lease is held |
| OutboxRunner.ExecutionGate.DiscardStopLeases | ios/Runner/BackgroundMigrationOutboxExecutionGate.swift:52-65 | Drops exactly the stop leases of the scope |
| OutboxRunner.ExecutionGate.Resume | ios/Runner/BackgroundMigrationOutboxExecutionGate.swift:67-73 | Releases the lease, and reports whether it was the last |
| OutboxRunner.OutboxStore.Write | ios/Runner/BackgroundMigrationOutboxStore.swift:123-132 | An update commits, fails unchanged, or fails after the replacement took effect |
| Keychain.KeychainStore.Add | ios/Runner/KeychainAccessibilityMigrator.swift:294-325 | A call may fail before or after taking effect; a duplicate is refused |
| Keychain.IndexedItems | ios/Runner/KeychainAccessibilityMigrator.swift:118-128 | The dictionary is exactly the items by account, or a duplicate is reported exactly when there is one |
| Keychain.Verify | ios/Runner/KeychainAccessibilityMigrator.swift:197-214 | Succeeds exactly when one protected copy with the expected bytes is there |
| Keychain.MigrateAccount | ios/Runner/KeychainAccessibilityMigrator.swift:130-175 | At every store call since the start the account's bytes are in one service or the other and no other account is touched; success leaves it settled, and without faults a recoverable account succeeds |
| Keychain.MigrateAll | ios/Runner/KeychainAccessibilityMigrator.swift:93-115 | The same over all accounts, with the count of accounts that had to be moved |
| Keychain.KeychainMigrator.EnsureThisDeviceOnly | ios/Runner/KeychainAccessibilityMigrator.swift:82-116 | Every intermediate state keeps all bytes and stays recoverable; the completion flag is set only on a settled device; without faults a recoverable device completes |
| Keychain.AttemptsCompose | ios/Runner/KeychainAccessibilityMigrator.swift:82-175 | Over any number of attempts cut off after any call, nothing is lost and the originals stay recoverable |
| Keychain.SettledMeansMigrated | ios/Runner/KeychainAccessibilityMigrator.swift:93-115 | A settled device holds exactly the original bytes, once each, protected, in the canonical service, with staging empty |
| Keychain.InterruptedThenComplete | ios/Runner/KeychainAccessibilityMigrator.swift:82-175 | Wherever interrupted attempts left the device, one uninterrupted attempt completes with nothing lost |
| LedgerHandler.LedgerMobileHandler.FinishClosing | ios/Runner/LedgerMobileHandler.swift:210-233 | Gives the transport up, or asks for a disconnect, only when nothing is outstanding |
| LedgerHandler.LedgerMobileHandler.Close | ios/Runner/LedgerMobileHandler.swift:175-208 | Answers everything owed at once, then closes or waits for the exchange task |
| LedgerHandler.LedgerMobileHandler.TransportForOperation | ios/Runner/LedgerMobileHandler.swift:250-272 | Claims the transport or answers busy; a closing owner in the way is nudged to retry |
| LedgerHandler.LedgerMobileHandler.Connect | ios/Runner/LedgerMobileHandler.swift:522-576 | Takes the callback slot, or answers the request |
| LedgerHandler.LedgerMobileHandler.FinishConnect | ios/Runner/LedgerMobileHandler.swift:578-598 | Answers the connect, or drains a cancelled link, or goes on closing |
| LedgerHandler.LedgerMobileHandler.Disconnect | ios/Runner/LedgerMobileHandler.swift:618-641 | Cancels the exchange first, answers busy while the SDK is, else takes the callback slot |
| LedgerHandler.LedgerMobileHandler.CancelExchangeOperation | ios/Runner/LedgerMobileHandler.swift:888-916 | Answers what waits, invalidates its generation and cancels its task, keeping the slot |
| LedgerHandler.LedgerMobileHandler.StartExchange | ios/Runner/LedgerMobileHandler.swift:829-879 | Takes the exchange slot, or answers busy |
| LedgerHandler.LedgerMobileHandler.TaskEnds | ios/Runner/LedgerMobileHandler.swift:840-879 | Answers its own request if that still waits, frees the slot, and retires the link of a timed-out query |
| LedgerHandler.LedgerMobileHandler.SendApdu | ios/Runner/LedgerMobileHandler.swift:941-951 | Hands an APDU over only from a task that is not cancelled |
| LedgerSafety.AskedOk | ios/Runner/LedgerMobileHandler.swift:102-150 | Every request keeps the one-slot invariants and is answered or held exactly once |
| LedgerSafety.HappenedOk | ios/Runner/LedgerMobileHandler.swift:175-951 | Every callback, timeout, close, retry and task step keeps the one-slot invariants |
| LedgerTheorems.EveryRequestIsAnsweredOnce | ios/Runner/LedgerMobileHandler.swift:522-932 | Over every run of any number of handlers, each request is answered exactly once or waits in exactly one place |
| LedgerTheorems.NoResultIsOverwritten | ios/Runner/LedgerMobileHandler.swift:522-932 | After any step by anyone each of the three slots of each handler still holds the same waiting result, or that request has been answered exactly once |
| LedgerTheorems.CancelledTasksSendNothing | ios/Runner/LedgerMobileHandler.swift:888-951 | Every APDU sent serves a request unanswered at that moment, and never uses the link of a cancelled connect |
| LedgerTheorems.OneUserAtATime | ios/Runner/LedgerMobileHandler.swift:13-49 | Only the owner has a task or an SDK call outstanding, and only one of them, so no two handlers do |
| LedgerTheorems.ReleasedOnlyWhenIdle | ios/Runner/LedgerMobileHandler.swift:210-233 | The transport is given up only by its owner, with no task, no SDK call and no link left |
| LedgerTheorems.ClosingIsNotStuck | ios/Runner/LedgerMobileHandler.swift:175-248 | A closing owner with nothing outstanding owes no answer and still has a release coming, unless bringing the link down failed twice |
| LedgerClosing.ClosingEnds | ios/Runner/LedgerMobileHandler.swift:175-248 | While a closing handler keeps the transport and no disconnect fails, at most three of the things it waits for happen, whatever anyone else does: the next one releases it |
| LedgerDriver.Drive | ios/Runner/LedgerMobileHandler.swift:102-951 | Any script of requests and events, driven through a heap of handler objects, ends in a run of the protocol: every field, the owner, the link, the answers and the sends |
| LedgerDriver.Perform | ios/Runner/LedgerMobileHandler.swift:250-272 | One request or event on the heap is one step of the protocol, after at most one nudge of the closing owner |
| LedgerHandler.LedgerMobileHandler.Handle | ios/Runner/LedgerMobileHandler.swift:102-150 | Each request on the object is answered or held as the protocol says, and nudges at most the closing owner |
| LedgerHandler.LedgerMobileHandler.Occur | ios/Runner/LedgerMobileHandler.swift:175-951 | Each callback, timeout and task step on the object is the step of the protocol |
| LedgerTheorems.LateResponseIsDropped | ios/Runner/LedgerMobileHandler.swift:918-932 | The end of a task whose request was answered already answers nobody |
| LedgerTheorems.CancelledLinkIsNotUsed | ios/Runner/LedgerMobileHandler.swift:600-616 | While the link of a cancelled connect may be up there is no exchange task, and connect, disconnect and exchange requests are answered busy |
| LedgerUfvk.ExchangeUfvk | ios/Runner/LedgerMobileHandler.swift:752-779 | Stops at the first response that finishes the delivery or the first exchange that throws; the loop terminates |
| LedgerUfvk.ExchangesAreBounded | ios/Runner/LedgerMobileHandler.swift:761-778 | Whatever the device answers, fewer than 8,191 responses leave anything to ask for |
| LedgerUfvk.KeyIsDelivered | ios/Runner/LedgerMobileHandler.swift:752-779 | A device that sends a key behind a header of its length, in any chunks, is read to the end of the key |
| Notifications.KeysIdentify | ios/Runner/MigrationPreparationNotificationCoordinator.swift:46-48 | The key determines scope and kind, even when scopes contain bars |
| Notifications.OtherKindIsStillNews | ios/Runner/MigrationPreparationNotificationCoordinator.swift:42-48 | Accepting events of one kind neither makes an alert of another kind look accepted nor forgets one that was, even for the same scope |
| Notifications.NewEventIsSubmitted | ios/Runner/MigrationPreparationNotificationCoordinator.swift:240-276 | An event that is not accepted is submitted with everything else pending, and its caller waits |
| Notifications.AcceptedIsNotAnnouncedAgain | ios/Runner/MigrationPreparationNotificationCoordinator.swift:248-260 | Accepted events are answered at once, without a submission |
| Notifications.SuppressedIsNotAnnouncedAgain | ios/Runner/MigrationPreparationNotificationCoordinator.swift:397-413 | Nor are events that were pending when the batch was suppressed |
| Notifications.NoWaiterIsLost | ios/Runner/MigrationPreparationNotificationCoordinator.swift:240-485 | From any persisted batch, in every reachable state whoever waits is served by an outstanding submission of the current generation that carries every pending event; with none outstanding nobody waits |
| Notifications.EveryCallerIsAnsweredOnce | ios/Runner/MigrationPreparationNotificationCoordinator.swift:240-485 | Under any interleaving each caller is answered exactly once or waits exactly once |
| Notifications.SuccessAcceptsAllPending | ios/Runner/MigrationPreparationNotificationCoordinator.swift:461-475 | A successful current submission leaves nothing pending unaccepted, and answers every waiter |
| Notifications.SupersededIsSilent | ios/Runner/MigrationPreparationNotificationCoordinator.swift:462-468 | A superseded completion answers nobody and accepts nothing |
| Notifications.ResolveKeepsTheOthers | ios/Runner/MigrationPreparationNotificationCoordinator.swift:278-292 | Resolving a scope keeps every other scope's pending event, through the next enqueue as well |
| Notifications.ResolveForgetsTheScope | ios/Runner/MigrationPreparationNotificationCoordinator.swift:86-95 | Nothing of the scope stays pending or accepted; another scope's accepted fingerprint goes too exactly when its name continues this one's with a bar or this name is its key |
| Notifications.BarlessResolveForgetsOnlyItsOwn | ios/Runner/MigrationPreparationNotificationCoordinator.swift:86-95 | Among scopes without a bar, resolving one forgets exactly its own accepted fingerprints |
| Notifications.ResolvingForgetsAnother | ios/Runner/MigrationPreparationNotificationCoordinator.swift:86-95 | Resolving the scope named a forgets what was accepted for the one named a, a bar, b |
| NotificationCoordinator.PreparationNotificationCoordinator.Enqueue | ios/Runner/MigrationPreparationNotificationCoordinator.swift:240-276 | The queue block, in place, with its loop over the events |
| NotificationCoordinator.PreparationNotificationCoordinator.Resolve | ios/Runner/MigrationPreparationNotificationCoordinator.swift:278-303 | The queue block of a resolution, in place |
| NotificationCoordinator.PreparationNotificationCoordinator.SubmissionCompleted | ios/Runner/MigrationPreparationNotificationCoordinator.swift:461-475 | The completion block: a superseded one changes nothing else, a current one flushes |
| NotificationCoordinator.PreparationNotificationCoordinator.FlushSubmissionCompletions | ios/Runner/MigrationPreparationNotificationCoordinator.swift:479-485 | Every waiting caller is answered, in order, once |
| NotificationCoordinator.PreparationNotificationCoordinator.MarkAccepted | ios/Runner/MigrationPreparationNotificationCoordinator.swift:78-84 | The loop records exactly the fingerprints of the events |
| NotificationCoordinator.PreparationNotificationCoordinator.PendingListed | ios/Runner/MigrationPreparationNotificationCoordinator.swift:304-325 | Replaces a summary that has not fired with the events still pending, or drops the deadline of a delivered one |
| NotificationCoordinator.PreparationNotificationCoordinator.SuppressCurrentBatch | ios/Runner/MigrationPreparationNotificationCoordinator.swift:397-413 | Everything pending counts as accepted, and every waiter is answered |
| NotificationCoordinator.PreparationNotificationCoordinator.ClearDeliveredSummary | ios/Runner/MigrationPreparationNotificationCoordinator.swift:386-395 | What is still pending is submitted again with a fresh deadline |
| WireCodec.EncodeVarint | ios/Runner/NativeLightwalletdClient.swift:383-393 | The loop writes the varint of the value |
| WireCodec.ReadVarintLoop | ios/Runner/NativeLightwalletdClient.swift:426-440 | The loop reads what the recursive reader reads, and terminates on all inputs |
| WireCodec.OrIsExact | ios/Runner/NativeLightwalletdClient.swift:426-440 | The bitwise or of the value so far and the next byte at its place is their sum, which stays below the place after it: nothing overlaps or overflows, whatever the byte is |
| WireCodec.HeldBelow | ios/Runner/NativeLightwalletdClient.swift:426-440 | At every step of reading any bytes, the value so far lies below the place of the next byte, whose bits are a multiple of that place |
| WireCodec.DisjointBitsAdd | ios/Runner/NativeLightwalletdClient.swift:426-440 | A number below a place and a multiple of the place: the bitwise or is the sum |
| WireCodec.VarintRoundTrip | ios/Runner/NativeLightwalletdClient.swift:383-440 | For every 64-bit value, in any surroundings, reading its varint returns it and stops at its end |
| WireCodec.Int32RoundTrip | ios/Runner/NativeLightwalletdClient.swift:321-327 | Every 32-bit error code survives sign extension and truncation |
| WireCodec.FrameRoundTrip | ios/Runner/NativeLightwalletdClient.swift:358-407 | The payload survives framing, whatever follows the frame |
| WireCodec.ParseSendLoop | ios/Runner/NativeLightwalletdClient.swift:310-356 | The parser loop computes the recursive parser, and terminates on all inputs |
| WireCodec.ParseTransactionLoop | ios/Runner/NativeLightwalletdClient.swift:243-262 | The same for the transaction response |
| WireCodec.UnknownFieldIsIgnored | ios/Runner/NativeLightwalletdClient.swift:310-356 | A well-formed unknown field in front of any message changes neither a result nor a rejection |
| WireCodec.UnknownFieldIsIgnoredInTransaction | ios/Runner/NativeLightwalletdClient.swift:243-262 | The same for the transaction response |
| WireCodec.SendResponseRoundTrip | ios/Runner/NativeLightwalletdClient.swift:310-356 | Every error code and message printed as the encoding prescribes is read back |
| WireCodec.TransactionRoundTrip | ios/Runner/NativeLightwalletdClient.swift:243-262 | The height printed by a server decides the observation; without one it is the mempool |
| Preparation.ConfirmationProgress | ios/Runner/BackgroundMigrationPreparationManager.swift:364-393 | The loop counts confirmation units and completed transactions |
| Preparation.ProgressIsFaithful | ios/Runner/BackgroundMigrationPreparationManager.swift:364-393 | A wave is complete exactly when it is not empty and all its transactions are deep enough; units then fill the total exactly when no stage is still to come; a later tip takes nothing back |
| Preparation.GoesBackExactly | ios/Runner/BackgroundMigrationPreparationManager.swift:455-507 | The bar goes back exactly when it was past what an incomplete wave may show |
| Preparation.HeartbeatsClosedForm | ios/Runner/BackgroundMigrationPreparationManager.swift:479-507 | Any number of heartbeats between two reports, in closed form: the bar jumps to the confirmed share, climbs one unit a beat and stops short of the next confirmation |
| PreparationTracker.Totals | ios/Runner/BackgroundMigrationPreparationManager.swift:270-290 | The reductions over the dictionary compute its totals, in whatever order its values come |
| PreparationTracker.CompleteBatchIsLast | ios/Runner/BackgroundMigrationPreparationManager.swift:208-306 | A batch that reports a complete wave asks for no further pass, and every account with progress is complete |
| PreparationTracker.ConfirmationsAccumulate | ios/Runner/BackgroundMigrationPreparationManager.swift:208-306 | Over all accounts the confirmations counted never drop from pass to pass while no account of its own does |
| PreparationTracker.BarNeverGoesBack | ios/Runner/BackgroundMigrationPreparationManager.swift:1575-1670 | Over every run of passes and heartbeats, whatever the passes find, the bar never goes back |
| PreparationTracker.FullBarIsTheLast | ios/Runner/BackgroundMigrationPreparationManager.swift:178-194 | The bar is full only once the run is over, under a last report that was complete |
| PreparationTracker.ConfirmedMeansNoFailure | ios/Runner/BackgroundMigrationPreparationManager.swift:178-194 | A run that finished confirmed had no task failure in any pass, and every alert it raised was submitted |
| PreparationTracker.Tracker.TrackingBatch | ios/Runner/BackgroundMigrationPreparationManager.swift:208-306 | The loop over the results and the reductions compute the batch, and update the dictionary in place |
| PreparationTracker.Tracker.TrackConfirmations | ios/Runner/BackgroundMigrationPreparationManager.swift:1575-1670 | The loop over passes and heartbeats takes exactly the steps of a run, and the bar ends no lower than it ever stood |

## Left out

- OutboxEdits.StageKeepsValid: requires that no other batch uses the staged item ids and that items are built by the item constructor, because `stage` itself checks ids only within the incoming batch; the state machine carries this as the caller's contract.
- OutboxTheorems.DrainedIsSettled: says nothing of a submission that was broken into (`OutboxWindow.BrokenInto`); its item may stay being submitted until the next recovery.
- OutboxTheorems.LeaseExcludesRuns: the blocking wait is one step that is enabled when no run is on; that it ever returns is not stated.
- OutboxRotation.ScopeRotationIsFair: for an unchanged set of accounts with due work; with a changing set the rotation may restart and starve an account.
- LedgerTheorems.EveryRequestIsAnsweredOnce: every SDK call calls back at most once, and a disconnect that reports success has brought the link down; both are assumptions about the SDK.
- LedgerClosing.ClosingEnds: bounds what a release waits for; that a callback, a timer or a task does come is up to the system, and a disconnect that keeps failing keeps the transport, as in the code.
- Preparation.ProgressIsFaithful: fractions and rounding are exact rationals, not doubles.
- Revocation and full removal happen under a drained lease, which the manager takes before either; the state machine does not let them interleave with a run.
- The class of the Ledger handler holds the handler's fields as one record value that its methods replace field by field.
- String order is lexicographic on characters; Swift's normalisation is not modelled. Only totality is used.
- The digest is an arbitrary function, dates are whole seconds, and the overflow trap of the 32-bit attempt counter is not modelled.
- The delay's exponential distribution: any draw, clamped as in the code.
- `isAcceptedEquivalent` is an arbitrary flag on the response.
- `hasBatch`, `proofReadinessCandidate`, the `pending*` queries, `nextActionAccountUuid` and the check cadence: pure look-ups.
- Encryption, JSON, file protection and the keychain functions behind the store: the store is a cell with three ways for a write to end.
- Real gRPC calls, the Rust functions behind them and URL building: results are arbitrary.
- The keychain migrator's list of allowed services and its access groups.
- Ledger discovery, the application-switch polling loop, signing delays, error classification and hex decoding; an exchange task may send, reconnect, resume and end in any order its guards allow.
- Notification texts and priorities, and the persistence of the batch state.
- PreparationTracker.ConfirmationsAccumulate: what a query of one account finds is arbitrary; the condition that no account loses confirmations is the chain's.
- Policy predicates of the preparation manager, the recording of continuation scopes, overflow traps in its sums, background task scheduling, watchdogs and all user interface code.
