# OnlineWorker protocols in Dafny

OnlineWorker is a bridge between chat or app clients and command-line agents.  Its hard code
keeps promises across retries, concurrent handlers, failed saves, cancellations, crashes and
restarts: a message goes out once, a session is created once, an update never starts over
running work, a reader of a stream never misses an event, a topic leads to one session and back.
This project models that code and proves those promises over every run, and where the code breaks
one it proves when it does, with a complete run that shows it.

| file | what it models |
|---|---|
| `Prelude.dfy`, `Strings.dfy` | shared datatypes; numerals and stripping |
| `UpdateLease.dfy` | task admission and the app-update lease, a timed reader/writer lock |
| `FirstMessage.dfy` | session creation and first-message delivery as a step system: memory, disk, running tasks, and a log of provider calls |
| `FirstMessageProofs.dfy` | what every run of it keeps |
| `FirstMessageLimits.dfy` | for each thing that is assumed of retries, passes and rechecks, that the promise breaks exactly without it, and runs that do |
| `FirstMessageProgress.dfy` | a record that says "sent" is true; what was not sent can still be sent, what is uncertain is not sent again; who is refused a creation |
| `DroppedRecords.dfy` | which passes of the reconciliation break that protocol, exactly, with whatever tasks at work |
| `SessionBridge.dfy` | the same code as a class that updates its records in place and keeps the invariant |
| `FollowUpSend.dfy` | later messages: `send_recovery` from "preparing" to its outcome, and its handler |
| `ThreadRemap.dfy` | rebinding a thread during a send, and rolling that back |
| `OrderedDelivery.dfy` | the bounded delivery queue that merges adjacent deltas through an alias |
| `EventBus.dfy` | the message bus: dedupe window, hidden sessions, re-entrant publishes |
| `ActivityStream.dfy` | the activity stream that disconnects a slow client |
| `ImRoutes.dfy` | the route table: constraints, transactions, lookups, migration |
| `RunLedger.dfy` | runs, stale turn events, and the handlers that mark a closing run and claim its announcement |
| `RunLedgerProofs.dfy`, `RunBook.dfy` | when a run is announced at most once, exactly; the ledger updated in place |
| `Storage.dfy`, `AtomicSave.dfy` | the saved document and the crash-safe save |
| `Reconcile.dfy` | bringing threads in line with what the provider lists |
| `TextLimit.dfy`, `LaunchMethods.dfy` | truncation to UTF-16 code units; unique launch-method ids |

How the models are built.  Code between two `await`s is one event.  Provider answers, save outcomes
and cancellations are part of the event and unconstrained; a save may raise before or after the file
was replaced (`Save`), and a crash may follow any event.  Where the source works in place, a class has its
fields and each method's `ensures` gives the whole new state; the properties are then proved of the step
functions over all runs.

What is assumed of the surroundings is one predicate, `FirstMessageProofs.Assumed`:

- A retry of an app request repeats its input, unless that cannot matter: it joins a running task, is
  refused, cannot be saved, or finds a record for which nothing live was sent, which nobody delivers, and
  which no Telegram resume can come to deliver (`RetryIsHarmless`).
- A pass over the thread list drops only records that may go (`PassIsHarmless`).  The record of a Telegram
  request may go when nothing live was sent for it.  The record of an app request, whose session exists, may
  go only when no task has yet to look for it and an open creation, its own or another's, that has neither a
  record nor a task keeps every new one out.
- The provider names a thread that is in the list only if its record may go and no task is at work on it.
- A call does not end as rejected after a receipt has said, within that call, that it was accepted.
- A recheck does not go by a "failed" that leaves a call live: the one the receipt is about, or a later one
  (`ReceiptIsCurrent`).

For the retry of a recorded request, the pass, the rejection and the recheck, `FirstMessageLimits` shows that
in every state with the invariant, whatever tasks, locks and leases there are, the promise survives every
continuation if and only if this is granted, and for all but the rejection that complete runs break it otherwise.

A send is one call of `message_hooks.send`, and it is live unless the provider is known to have taken nothing
of it.  Its own answer decides.  Within a call the provider may be asked more than once, and a receipt for one
try says nothing of the next: it counts only if the call is cut off before another try.  A receipt is believed
about its own try and about nothing else; when it comes, if ever, is not assumed.

That no message goes out twice would also hold of code that sends nothing, so `FirstMessageProgress` proves the
other side: over every run, with nothing assumed, a record that says "sent" has a call that was accepted or a
receipt that says so; from every state with the invariant a message that is new, pending or failed can still
arrive in some continuation as assumed; and a submit is refused only over a creation that was saved or asked
for.  The other models have the same two sides: `CanArrive` for later messages, `TurnIsAnnounced` for runs,
`UpsertIsFound` for routes, `OneFileIsEnough` for the state file.

Where code and design differ, the code is followed:

- A retry with other input marks a message that was already sent as failed, and the next retry sends it
  again (`RetryBreaksExactly`, `MismatchedRetrySendsTwice`).  The same happens when nothing was sent yet but
  a Telegram resume delivers before the retry gets the lock (`EarlyMismatchSendsTwice`).
- A session whose record was dropped is created again, and its message sent again, though every retry
  repeats the input (`PassBreaksExactly`, `ForgottenThreadCreatesTwice`, `ForgottenThreadSendsTwice`).  A
  reservation of its own does not help when a retry is already waiting (`ReservedThreadCreatesTwice`).
  Reconciliation can drop one: app-path sessions carry the source "provider", not "app"
  (`ReconcileBreaksExactly`, `ProviderSessionDroppedExactly`).
- A stored receipt outlives the try it was about when the next one does not clear it; a recheck then takes a
  sent message for a failed one (`RecheckBreaksExactly`).  The next try may be that of a later call
  (`StaleReceiptSendsTwice`), or one within the same call while the thread is archived
  (`ArchivedMeanwhileSendsTwice`).
- Hook events start background tasks without an admission, so such a task can run under an update lease
  (`HookRunsUnderLeaseExactly`).
- A follow-up id that is not the last one recorded is sent again when reused (`ReusedIdRepeatsExactly`,
  `ReusedIdSendsTwice`).
- A pass that drops a thread drops its `send_recovery`, so a new attempt follows one whose outcome is open
  (`ForgottenAttemptIsFollowed`).
- A run is announced twice after its handler announced it while it was open, after it was ended with a
  status outside the final ones, such as "canceled", or after a second thread took over its turn id
  (`AnnouncedAgainExactly`, `CanceledRunIsAnnouncedTwice`, `UnnamedFinalIsAnnouncedTwice`).
- A delivery subscriber that publishes a keyed event would put its key into the window twice
  (`NestedKeyIsStoredTwice`); the one in the code publishes without a key.
- A thread filed under a key other than its id is reconciled differently by a second pass
  (`SecondPassIsQuiet` has the exact condition).
- Cutting a text may leave an inline code mark open (`PairedExactly` has the exact condition).

## Model

| member | source | states |
|---|---|---|
| UpdateLease.LeaseExcludesWork | core/state.py:187-195 | over every run, while the lease is held no admission is open and no send or creation task unfinished, and the counter is the number of open admissions |
| UpdateLease.HookRunsUnderLeaseExactly | core/provider_owner_bridge.py:1863-1868 | from a granted lease on, a hook-event task runs if and only if its event came in since and has not ended, and nothing keeps one out |
| UpdateLease.NestedAdmissionSucceeds | core/provider_session_new.py:101-110 | an unfinished send or creation task, and a handler already admitted, is never refused a further admission |
| UpdateLease.GrantedExactly | core/provider_owner_bridge.py:1636-1665 | a lease is granted if and only if nothing is admitted, no task of either kind is pending and nothing else is busy |
| UpdateLease.LeaseLastsThirtySeconds | core/provider_owner_bridge.py:1636-1665 | until it is cancelled or renewed a granted lease refuses every admission for thirty seconds, and none after |
| UpdateLease.CancelledLeaseLetsIn | core/state.py:187-192 | once a lease is cancelled an admission is granted |
| UpdateLease.AdmissionGate.EnterAdmission | core/state.py:187-192 | refuses exactly under a live lease, else counts the block |
| UpdateLease.AdmissionGate.LeaveAdmission | core/state.py:193-195 | gives the admission back |
| UpdateLease.AdmissionGate.PrepareAppUpdate | core/provider_owner_bridge.py:1636-1665 | a granted lease found no open admission and no pending task of either kind, and leaves the lock exclusive |
| UpdateLease.AdmissionGate.DiscardHookEvent | core/provider_owner_bridge.py:1868 | the done callback takes that hook event, and no send or creation, off the pending tasks |
| UpdateLease.AdmissionGate.StartHookEvent | core/provider_owner_bridge.py:1863-1868 | a hook event joins the pending tasks at any time, the lease included, and the exclusion of sends and creations stays |
| FirstMessageProofs.AtMostOneLiveSend | core/provider_session_new.py:190-324 | within one workspace, a request id has at most one provider call that may have delivered something, that is, one that was accepted, is open, or ended without word, over every run of retries, concurrent handlers, repeated tries, receipts, failed saves, cancellations and restarts |
| FirstMessageProofs.DurableAfterSend | core/provider_session_new.py:301-324 | after such a send the status in memory and on disk is sending, unknown or sent, under the thread it was sent to, as long as no entry is dropped for which something live was sent |
| FirstMessageProofs.AtMostOneAppCreation | core/provider_owner_bridge.py:2489-2535 | `start_thread` is called at most once per app request id, over every run |
| FirstMessageProofs.StartOnlyUnderOwnReservation | core/provider_owner_bridge.py:2499-2512 | an app creation starts only while the workspace's reservation is its own, still "preparing" and on disk |
| FirstMessageProofs.StepKeeps | core/provider_owner_bridge.py:2329-2433 | every event of the protocol keeps the invariant that ties records, reservations, tasks, disk and provider log together |
| FirstMessageProofs.BeginKeeps | core/provider_session_new.py:107-110 | the nested admission of an app task never fails, so its record is not touched there |
| FirstMessageProofs.RaisedKeeps | core/provider_owner_bridge.py:2364-2369 | a creation that failed without a record marks its own reservation unknown and no other |
| FirstMessageProofs.UnsavedCreateKeeps | core/provider_owner_bridge.py:2356-2363 | the record that could not be saved is marked failed, and nothing live was sent under it |
| FirstMessageProofs.ReceiptKeeps | core/user_messages/recovery.py:36-55 | a receipt at any time, about any call for the entry, keeps the invariant: it is noted on an open call, settles one that ended without word, and never takes back what was accepted |
| FirstMessageProofs.TryKeeps | plugins/providers/builtin/codex/python/runtime.py:1222-1300 | another try within a call keeps the invariant, whether or not the receipt of the last one could be cleared |
| FirstMessageProofs.RecheckKeeps | core/provider_owner_bridge.py:1367-1380 | settling a record from a stored receipt keeps the invariant if neither the call it is about nor a later one may have delivered |
| FirstMessageProofs.RecheckIsSoundExactly | core/provider_owner_bridge.py:1367-1380 | a recheck keeps the store sound if and only if its receipt is current in that sense |
| FirstMessageProofs.PassIsSoundExactly | bot/handlers/common.py:187-188 | the store that a pass leaves is sound if and only if nothing live was sent for a Telegram record that it drops and, if it drops an app record, a creation without a record is open |
| FirstMessageProofs.PassKeeps | bot/handlers/common.py:187-188 | a pass that drops only records that may go keeps the whole invariant, whatever tasks are at work, on dropped records too |
| FirstMessageProofs.CrashKeeps | core/user_messages/recovery.py:76-101 | a crash after any event, and a restart that saved any part of its repairs, keep the invariant |
| FirstMessageProofs.RestoredIsSound | core/user_messages/recovery.py:76-101 | the repaired store still guards every live send and claims every creation |
| FirstMessageLimits.RetryBreaksExactly | core/provider_session_new.py:125-131 | in every state with the invariant, a retry of a recorded request leads to a second send or creation, in some otherwise regular continuation, if and only if its input differs from the recorded one, it joins no running task, and something live was sent for the record, or somebody delivers it, or a Telegram resume can come to |
| FirstMessageLimits.PassBreaksExactly | bot/handlers/common.py:187-188 | in every state with the invariant, a pass leads to a second send or creation, in some otherwise regular continuation, if and only if it drops a Telegram record for which something live was sent, or an app record while a task has yet to look for it or a further app creation can begin |
| FirstMessageLimits.RecheckBreaksExactly | core/provider_owner_bridge.py:1367-1380 | in every state with the invariant, a recheck leads to a second send or creation, in some otherwise regular continuation, if and only if it goes by a "failed" while the call it is about, or a later one, may have delivered |
| FirstMessageLimits.RejectionBreaksExactly | core/provider_session_new.py:208-217 | in every state with the invariant, a rejected call leads to a second send or creation, in some otherwise regular continuation, if and only if a receipt has said within it that it was accepted |
| FirstMessageLimits.SubmitCreatesAgainExactly | core/provider_owner_bridge.py:2497-2512 | a request created before gets a creating task again if and only if its record is gone, no creation is open, not even its own, and the reservation is saved |
| FirstMessageLimits.MismatchForgetsCommitment | core/provider_session_new.py:125-131 | at the lock, a retry takes a committed record back to failed if and only if its input differs from the recorded one |
| FirstMessageProgress.SentIsTrue | core/provider_session_new.py:208-217 | over every run, with nothing assumed, a record that says sent, in memory or on disk, has a call of its own for its thread that was accepted, or that a receipt said was accepted |
| FirstMessageProgress.UnsentCanArrive | core/provider_session_new.py:190-217 | in every state with the invariant, a pending or failed record can be delivered in some continuation as assumed: a retry with its input, or a Telegram resume, ends with an accepted call and the record saying sent |
| FirstMessageProgress.TurnedAwayCanArrive | core/provider_session_new.py:208-217 | a delivery turned away before the provider call, for whatever reason but a cancellation, leaves a message that can still arrive |
| FirstMessageProgress.RejectedCanArrive | core/provider_session_new.py:208-217 | so does a call that the provider rejected |
| FirstMessageProgress.UnsavedEntryCanArrive | core/provider_session_new.py:201-206 | so does a delivery that could not save "preparing" |
| FirstMessageProgress.RestartedCanArrive | core/user_messages/recovery.py:89-101 | so does a crash before "sending" was saved |
| FirstMessageProgress.RecheckTells | core/provider_owner_bridge.py:1367-1380 | a recheck that goes by a current receipt ends with sent, or with a message that can still arrive |
| FirstMessageProgress.ForeignReceiptSettlesNothing | core/provider_owner_bridge.py:1361-1370 | a receipt for another provider id, and one of an archived thread, change nothing |
| FirstMessageProgress.ClearedReceiptSettlesNothing | core/user_messages/recovery.py:36-49 | once the receipt is cleared for another try, a recheck has nothing to go by |
| FirstMessageProgress.NewMessageCanArrive | core/provider_owner_bridge.py:2489-2535 | in every state with the invariant, a request without a record or task can be created and delivered unless a creation is open |
| FirstMessageProgress.CalledExactly | core/provider_session_new.py:299-313 | the provider is called, once, if and only if the entry is listed and unarchived, nothing went wrong and "sending" was saved |
| FirstMessageProgress.RestartLeavesArchived | core/user_messages/recovery.py:89-92 | a restart leaves the records of archived threads as they were |
| FirstMessageProgress.UncertainIsNotRepeated | core/provider_session_new.py:199-217 | over every continuation, a message whose delivery was cut off, or whose call ended without a word, is not sent again before something says what became of it |
| FirstMessageProgress.RefusedOnlyForACreation | core/provider_owner_bridge.py:2497-2512 | over every run, a submit is refused if and only if it has a running task, or no record while a creation is open; and an open creation was saved or asked for |
| FirstMessageProgress.UnsavedSubmitIsNoObstacle | core/provider_owner_bridge.py:2499-2512 | a submit whose reservation could not be saved keeps no later submit out |
| FirstMessageProgress.RecordedCreationIsNoObstacle | core/provider_owner_bridge.py:2379-2381 | a creation that was recorded and saved keeps none out |
| FirstMessageProgress.FoundCreationIsNoObstacle | core/provider_owner_bridge.py:2379-2381 | nor does one that a retry finds recorded |
| FirstMessageProgress.RestartedCreationIsNoObstacle | core/user_messages/recovery.py:78-88 | after a restart only a creation without a record keeps others out |
| FirstMessageLimits.MismatchedRetrySendsTwice | core/provider_owner_bridge.py:2355-2363 | a complete run that sends one request twice |
| FirstMessageLimits.EarlyMismatchSendsTwice | bot/handlers/thread.py:572-577 | a reachable state in which nothing was sent, and a mistaken retry after which a Telegram resume and a correct retry both deliver |
| FirstMessageLimits.ReservedThreadCreatesTwice | core/provider_owner_bridge.py:2356-2364 | a reachable state in which a record and its own reservation stand side by side and a retry waits; dropping the record leads to a second creation |
| FirstMessageLimits.ForgottenThreadCreatesTwice | core/provider_owner_bridge.py:2497-2506 | a complete run that creates two sessions for one request once its thread was dropped |
| FirstMessageLimits.ForgottenThreadSendsTwice | core/provider_owner_bridge.py:2497-2506 | a complete run that sends one message twice with one input throughout |
| FirstMessageLimits.StaleReceiptSendsTwice | core/provider_owner_bridge.py:1367-1380 | a complete run in which the receipt of a first call undoes the second |
| FirstMessageLimits.ArchivedMeanwhileSendsTwice | core/user_messages/recovery.py:36-38 | a complete run with one input in which the receipt of a first try, not cleared because the thread is archived, undoes the very call that was accepted |
| FirstMessageLimits.RetriedCallSendsTwice | plugins/providers/builtin/codex/python/runtime.py:1284-1300 | a complete run in which a call fails at its first try and is accepted at its second, and a mistaken and a correct retry send it again, though no Telegram resume can repeat the input |
| DroppedRecords.ReconcileBreaksExactly | bot/handlers/common.py:137-188 | whatever tasks are at work, a reconciliation pass leads to a second send or creation, in some otherwise regular continuation, if and only if it drops a thread whose record may not go |
| DroppedRecords.ReconcileIsSoundExactly | bot/handlers/common.py:137-188 | of the store alone: a pass leaves it unsound if and only if it drops a thread whose record the store needs |
| DroppedRecords.ProviderSessionDroppedExactly | bot/handlers/common.py:137-178 | when a pass drops a session created on the app path, exactly |
| SessionBridge.Bridge.HandleStartSessionMessage | core/provider_owner_bridge.py:2489-2535 | joins a running task, reuses a record, refuses under an open reservation, or reserves on disk before it starts a task; keeps the invariant |
| SessionBridge.Bridge.HandleStartFailure | core/provider_owner_bridge.py:2355-2375 | the record, the reservation and the disk after `start_real_provider_thread` raised |
| SessionBridge.Bridge.BeginStart | core/provider_session_new.py:101-110 | the nested admission, or the failure path; keeps the invariant |
| SessionBridge.Bridge.ScanOrCreate | core/provider_session_new.py:125-137 | reuses the one matching record, raises on other input, or calls the provider; keeps the invariant |
| SessionBridge.Bridge.FinishCreation | core/provider_session_new.py:137-164 | the created, failed and cancelled outcomes of the provider call; keeps the invariant |
| SessionBridge.Bridge.RecordThread | core/provider_session_new.py:143-164 | records the created thread with its input and checkpoints it before anything is sent |
| SessionBridge.Bridge.FinishStart | core/provider_owner_bridge.py:2376-2381 | releases the admission and drops only its own reservation |
| SessionBridge.Bridge.EnterSendStarted | core/provider_session_new.py:190-207 | only a pending or failed record goes on, and only once "preparing" is saved; keeps the invariant |
| SessionBridge.Bridge.DeliverPrepared | core/provider_session_new.py:299-313 | the send is logged only after "sending" was saved; an archived target or a failed save gives "failed"; keeps the invariant |
| SessionBridge.Bridge.FinishSend | core/provider_session_new.py:208-217 | accepted, rejected and uncertain outcomes become sent, failed and unknown, and the log takes the call's own answer; keeps the invariant |
| SessionBridge.Bridge.RecordDeliveryReceipt | core/user_messages/recovery.py:36-55 | the receipt is kept in the record and noted on its call, which it does not end; keeps the invariant |
| SessionBridge.Bridge.ClearReceiptForTry | core/user_messages/recovery.py:36-49 | the receipt is cleared before another try unless the thread is archived or no longer listed, and without a save there is no further try; keeps the invariant |
| SessionBridge.Bridge.RecheckSessionSend | core/provider_owner_bridge.py:1361-1380 | the stored receipt settles an unarchived record that is not under way, if it names the thread the entry is bound to; keeps the invariant |
| SessionBridge.Bridge.RestoreSendRecoveries | core/user_messages/recovery.py:76-101 | memory is repaired whatever becomes of the saves, the disk holds some of the repairs, and the invariant of before the crash still holds |
| SessionBridge.Bridge.RestorePendingCreation | core/user_messages/recovery.py:78-88 | an unfinished creation becomes unknown, a recorded one is dropped |
| SessionBridge.Bridge.RestoreThread | core/user_messages/recovery.py:89-101 | one thread's record on restart |
| SessionBridge.Bridge.FindRecord | core/provider_session_new.py:125-128 | the scan finds the record of a request exactly when there is one |
| FollowUpSend.EachIdSentOnce | core/provider_owner_bridge.py:2264-2291 | with fresh ids each id enters the provider at most once ever, and its record then never reads failed short of a receipt |
| FollowUpSend.AdmittedExactlyWhenSettled | core/provider_owner_bridge.py:2067-2094 | an attempt starts if and only if the previous one and the first message are settled, the id is new and the record could be saved |
| FollowUpSend.LastWordIsNotFailed | core/provider_owner_bridge.py:2293-2297 | once the provider was entered the task writes only sent or unknown, over a record that said sending in memory and on disk |
| FollowUpSend.SentIsTrue | core/provider_owner_bridge.py:2264-2297 | over every run, a record that says sent, in memory or on disk, has a call that was made and returned, or was confirmed by a receipt |
| FollowUpSend.OpenCanArrive | core/provider_owner_bridge.py:2064-2291 | with everything before it settled, a message with a new id can arrive: its call is made and returns, and its record says sent |
| FollowUpSend.EndedCanBeFollowed | core/provider_owner_bridge.py:2234-2297 | an attempt that arrived, or gave up before the provider was called, keeps no later message out |
| FollowUpSend.UnsavedCanBeFollowed | core/user_messages/recovery.py:58-73 | nor does an attempt that could not be saved |
| FollowUpSend.RestartedCanBeFollowed | core/user_messages/recovery.py:104-110 | nor does one that a restart cut off before "sending" was saved |
| FollowUpSend.CalledExactly | core/provider_owner_bridge.py:2264-2278 | the provider is called if and only if the target is still valid and an attempt with a record could save "sending" |
| FollowUpSend.UnidentifiedAdmittedExactly | core/provider_owner_bridge.py:2067-2077 | an attempt without an id is refused only by the session tab, and only over something unresolved |
| FollowUpSend.RecheckTells | core/provider_owner_bridge.py:1367-1380 | a recheck writes what the receipt says, and leaves an attempt under way alone |
| FollowUpSend.StepKeeps | core/provider_owner_bridge.py:2064-2313 | every event, receipts, other saves, passes over the list and restart included, keeps at most one identified attempt with its own unresolved record, and records that tell the truth |
| FollowUpSend.ReusedIdRepeatsExactly | core/provider_owner_bridge.py:2078-2090 | an id that reached the provider is sent again, in some continuation with fresh ids, if and only if everything before it is settled, it is not the recorded id, and the new attempt is saved |
| FollowUpSend.ReusedIdSendsTwice | core/provider_owner_bridge.py:2078-2090 | a complete run in which an older id is sent twice |
| FollowUpSend.ForgottenAttemptIsFollowed | bot/handlers/common.py:187 | a reachable state with an attempt under way in which no new one is admitted until a pass drops the thread and it is listed again |
| FollowUpSend.SendHandler.CheckpointSendRecovery | core/user_messages/recovery.py:58-73 | the record and the disk after a checkpoint, with a failed save of "preparing" or "sending" turning to failed and raising |
| FollowUpSend.SendHandler.HandleSendMessage | core/provider_owner_bridge.py:2064-2094 | both guards, the early returns and the first checkpoint; keeps at most one identified attempt |
| FollowUpSend.SendHandler.GiveUpSend | core/provider_owner_bridge.py:2234-2239 | a handler that fails marks its own record failed; keeps the invariant |
| FollowUpSend.SendHandler.BeginExecuteSend | core/provider_owner_bridge.py:2264-2276 | an attempt with a record enters the provider only with "sending" saved; keeps the invariant |
| FollowUpSend.SendHandler.EndExecuteSend | core/provider_owner_bridge.py:2289-2297 | the outcome written to the attempt's own record only; keeps the invariant |
| ThreadRemap.RebindAndBack | core/provider_owner_bridge.py:2182-2191 | moving an entry there and back restores the map if and only if the new id was free |
| ThreadRemap.ReplaceThreadBinding | plugins/providers/builtin/codex/python/runtime.py:1042-1051 | the entry moves to the new id with its source and activity, and nothing else changes |
| ThreadRemap.RollbackThreadRemap | core/provider_owner_bridge.py:2177-2192 | restores map and saved fields exactly when the thread is rebound, unarchived and still the one in the map |
| ThreadRemap.FailedSend | core/provider_owner_bridge.py:2234-2248 | whatever became of the map, the binding and saved fields go back exactly when the thread is unarchived and still filed under its new id; untouched, everything is as before |
| OrderedDelivery.Consumer.Enqueue | bot/events.py:95-116 | refuses exactly when closed or full without a joinable tail, and publishes the failure exactly when full; otherwise accepted, delivered and queued still mean the same and the alias is the last queued entry |
| OrderedDelivery.Consumer.ExtendTail | bot/events.py:98-102 | joining through the alias keeps the meaning and the queue |
| OrderedDelivery.Consumer.JoinThroughAlias | bot/events.py:99-101 | writing through the alias changes the last queued entry and no other, queued or being delivered |
| OrderedDelivery.Consumer.NextCallback | bot/events.py:118-124 | hands out the oldest entry, or ends with an empty queue; nothing lost, repeated or reordered |
| OrderedDelivery.Consumer.CallbackEnds | bot/events.py:127-130 | the accounting stays exact and an open non-empty queue keeps a live worker |
| OrderedDelivery.Consumer.WorkerCancelled | bot/events.py:125-130 | cancellation counts the entry in flight as done and keeps the rest queued |
| OrderedDelivery.Consumer.BeginClose | bot/events.py:132-138 | from here on nothing is accepted; queue and worker are as they were |
| OrderedDelivery.Consumer.FinishClose | bot/events.py:140-143 | after close nothing is queued or unfinished and no callback ran |
| OrderedDelivery.ExtendIsAppend | bot/events.py:98-102 | joining a delta to the last entry means the same as appending it |
| OrderedDelivery.ExtendKeepsMeaning | bot/events.py:95-102 | with any history and queue, joining the tail keeps delivered and queued equal in meaning to what was accepted |
| OrderedDelivery.NormKeepsText | bot/events.py:98-102 | joining loses and reorders no text of any stream |
| OrderedDelivery.DeliveredTextIsPrefix | bot/events.py:95-130 | for every stream, text delivered followed by text queued is the text accepted |
| EventBus.RefusedExactlyInWindow | core/messages/bus.py:58-73 | after any run with re-entrant publishes, a keyed event is refused if and only if one of the last `max_events` stored events carries its key |
| EventBus.PublishKeeps | core/messages/bus.py:47-92 | a whole tree of publishes keeps the dedupe set equal to the keys of the window, each occurring once |
| EventBus.KeylessPublishKeeps | bot/events.py:103-112 | the notification published from inside a delivery subscriber never adds a key |
| EventBus.HiddenSessionsStaySilent | core/messages/bus.py:54-57 | nothing but `session.hidden` is stored for a hidden session, inside nested publishes too |
| EventBus.AcceptedExactly | core/messages/bus.py:47-65 | an event is accepted if and only if its workspace agrees, its session is not hidden, its key is new and no delivery subscriber vetoes it |
| EventBus.StoredExactlyWhenAccepted | core/messages/bus.py:54-79 | an accepted event is stored; a refused one leaves nothing behind but the hiding of its session, if subscribers publish nothing |
| EventBus.HydratedExactly | core/messages/bus.py:73-79 | after any run a session counts as hydrated if and only if its history was loaded and it was neither archived nor hidden since |
| EventBus.NestedKeyIsStoredTwice | core/messages/bus.py:58-67 | the window invariant needs delivery subscribers to publish without keys |
| EventBus.MessageEventBus.Publish | core/messages/bus.py:47-92 | the in-place bus makes exactly the modelled transition, whatever the subscribers do, and keeps the invariant when delivery subscribers publish without keys |
| EventBus.MessageEventBus.Deliver | core/messages/bus.py:60-65 | subscribers run in order until the first veto |
| EventBus.MessageEventBus.StoreEvent | core/messages/bus.py:66-79 | window, keys and hydrated sessions after an event is stored |
| ActivityStream.PrefixIsABusView | core/provider_owner_bridge.py:1189-1236 | folding any prefix of the payloads over the snapshot gives what the bus showed after some of the events |
| ActivityStream.OneEvent | core/provider_owner_bridge.py:1189-1222 | one payload takes the client from what the bus showed before an event to what it shows after |
| ActivityStream.Stream.Enqueue | core/provider_owner_bridge.py:57-65 | a full queue disconnects, and nothing is queued afterwards |
| ActivityStream.Stream.OnEvent | core/provider_owner_bridge.py:1189-1222 | written and queued stay a gap-free prefix of the payloads, all of them while connected |
| ActivityStream.Stream.WriteNext | core/provider_owner_bridge.py:78-81 | writes the oldest queued payload |
| ActivityStream.Stream.ClientShowsABusView | core/provider_owner_bridge.py:70-91 | at any moment the client shows a state the bus was in, the latest once it has caught up |
| ImRoutes.UpsertAbortsExactlyOnBadRow | core/im_routes.py:616-662 | from a legal table an upsert aborts if and only if its own row breaks a CHECK |
| ImRoutes.MarkAbortsExactly | core/im_routes.py:361-395 | marking aborts if and only if an unknown row would become invalid, or a target active elsewhere would be activated again |
| ImRoutes.UpsertIsFound | core/im_routes.py:616-662 | an active upsert of a proper target commits, both lookups then find it with what it was given, and bound entries of other targets keep their lookups |
| ImRoutes.MovedRouteIsClosed | core/im_routes.py:686-728 | the entry that the target led to before becomes invalid and leads nowhere |
| ImRoutes.MarkedRouteIsFoundExactly | core/im_routes.py:361-395 | after a mark the entry is found by both lookups if it is active and not found otherwise, and no other row changes |
| ImRoutes.ArchiveAndBack | core/im_routes.py:361-395 | archiving a route and activating it again brings its lookups back |
| ImRoutes.ObservedIsSeen | core/im_routes.py:304-359 | an observed entry is noted as seen, and takes the name over while it is not bound |
| ImRoutes.MigratedTopicsAreFound | core/im_routes.py:155-226 | every topic that a migration inserts is found by both lookups when it has ended |
| ImRoutes.ReplacedRowIsLegal | core/im_routes.py:133-152 | changing one row keeps the table legal if and only if the row meets its CHECKs and shares no index entry |
| ImRoutes.ObserveChangesNoBinding | core/im_routes.py:304-359 | observing never aborts and never changes an existing row's scope, target, path or status |
| ImRoutes.CloseIsLegal | core/im_routes.py:686-728 | closing the other active rows of a target keeps the table legal |
| ImRoutes.ReachableIsLegal | core/im_routes.py:602-614 | what the transaction gives by itself: each operation commits a legal table or leaves it unchanged |
| ImRoutes.OneRoutePerTarget | core/im_routes.py:561-600 | at most one active row answers a target |
| ImRoutes.LookupsAreInverse | core/im_routes.py:455-525 | a target finds an entry if and only if the entry finds the target |
| ImRoutes.ActiveRoutesAreOneToOne | core/im_routes.py:133-152 | in every reachable table active bound entries and targets are in bijection |
| ImRoutes.MigrationKeepsBindings | core/im_routes.py:155-226 | with the topics its caller builds a migration never aborts, checked after each statement, never changes a row that was not unknown, and settles every topic |
| ImRoutes.MigrationIsIdempotent | core/im_routes.py:664-684 | a second migration with the same storage changes nothing |
| ImRoutes.ImRouteStore.UpsertRouteConn | core/im_routes.py:616-662 | close then insert or update, keeping the creation time |
| ImRoutes.ImRouteStore.CloseExistingActiveTargetRoutes | core/im_routes.py:686-728 | every other active row of the target in the space becomes invalid, no other row changes |
| ImRoutes.ImRouteStore.EndTransaction | core/im_routes.py:602-614 | commits a legal table, else rolls back |
| ImRoutes.ImRouteStore.MarkTopicStatus | core/im_routes.py:361-395 | the marking transaction and its row count |
| ImRoutes.ImRouteStore.ObserveUnknownEntry | core/im_routes.py:304-359 | the observing transaction |
| ImRoutes.ImRouteStore.MigrateJsonTopics | core/im_routes.py:155-226 | the migration as a loop over the topics that rolls back at the first statement that breaks a constraint |
| ImRoutes.ImRouteStore.GetTargetRoute | core/im_routes.py:561-600 | returns a most recently updated matching active row, or none when there is none |
| RunLedgerProofs.NotifiedAtMostOnce | bot/events.py:1160-1175 | over every sequence of duplicated, reordered and stale events and their late handlers, no stored run is granted two announcements as long as no step unseals an announced run |
| RunLedgerProofs.AnnouncedAgainExactly | bot/events.py:2010-2023 | after a step, an announcement can be repeated by a continuation that unseals nothing more if and only if the step unseals an announced run |
| RunLedgerProofs.StepKeepsExactly | bot/events.py:2137-2185 | mark and claim in one stretch keep announced runs final or synced and announced once, exactly when the step unseals none |
| RunLedgerProofs.RegularRunsNotifyOnce | bot/events.py:2319-2364 | with turn ids of one thread each, final statuses, and final items that name their turn or find a run, every stored run is announced at most once |
| RunLedgerProofs.LocalKeepsFinished | bot/events.py:2319-2364 | with such events a finished run stays finished, though one final status may replace another |
| RunLedgerProofs.TurnIsAnnounced | bot/events.py:2010-2023 | a new turn that starts, ends and is handled is announced, its run completed and synced, and its thread active in the meantime |
| RunLedgerProofs.FinalIsAnnounced | bot/events.py:1905-1928 | so is the current run whose final item is handled |
| RunLedgerProofs.DuplicateFinalCompletes | bot/events.py:1808-1848 | a second final item completes its run and announces it if that was not done |
| RunLedgerProofs.PassedOverExactly | bot/events.py:1988-2006 | the end of a turn is passed over if and only if its reply is out and its thread runs another turn |
| RunLedger.ClaimGrantedExactly | bot/events.py:1128-1175 | a claim is granted if and only if the stream is free and the run has not been announced; an event without a stored run is granted |
| RunLedger.SecondClaimIsRefused | bot/events.py:1128-1175 | of two claims for a stored run one at most is granted |
| RunLedger.ActiveFollowsTurns | bot/events.py:2335-2364 | a thread is active from a start that is taken in to an end that is |
| RunLedger.FirstSignStartsRun | bot/events.py:2335-2364 | the first sign of a turn in a thread without a run starts its run |
| RunLedger.ArchivedSessionChangesNothing | bot/events.py:2319-2334 | an event of a session that is kept out changes nothing |
| RunLedger.SupersededTurnChangesNothing | bot/events.py:2348-2349 | an event of a turn the thread has moved past changes nothing |
| RunLedger.RestartedExactly | bot/events.py:2340-2345 | exactly when a turn-started event replaces a thread's own run |
| RunLedger.ReturningTurnRestartsExactly | bot/events.py:2340-2345 | a turn that comes back is started again unless its run is completed, failed, aborted or cancelled |
| RunLedger.FinishedRunReplacedExactly | bot/events.py:2340-2352 | a finished run is replaced exactly through a turn id that a second thread uses too |
| RunLedgerProofs.CanceledRunIsAnnouncedTwice | bot/events.py:2342-2346 | a complete run in which the other spelling leads to two announcements |
| RunLedgerProofs.UnnamedFinalIsAnnouncedTwice | bot/events.py:1921-1928 | a complete run in which a final item without a turn id announces an open run, which is announced again |
| RunBook.RunState.ConsumeEvent | bot/events.py:2335-2379 | the in-place update makes the modelled transition, and keeps the invariant exactly when it unseals nothing |
| RunBook.RunState.HandleItemCompleted | bot/events.py:1805-1928 | the marks and the claim of a final item's handler, likewise |
| RunBook.RunState.LookAtTurn | bot/events.py:1988-2006 | before its first await the handler of a turn's end returns exactly when the turn is synced and its thread has moved on; keeps the invariant |
| RunBook.RunState.HandleTurnCompleted | bot/events.py:2010-2023 | the marks and the claim of a turn's end after that look, whatever came in since, likewise |
| RunBook.RunState.UpdateLocal | bot/events.py:2335-2364 | the ledger part of update_local, branch by branch |
| RunBook.RunState.ClaimNotification | bot/events.py:1128-1175 | a claim marks one run or nothing, and says whether it was granted |
| RunBook.RunState.StartRun | core/state.py:688-726 | the run is stored under its turn and becomes its thread's current run |
| RunBook.RunState.MarkRun | core/state.py:748-818 | status, sync, progress and announcement marks on the run of the event's turn and on no other |
| RunBook.RunState.GetRunForTurn | core/state.py:737-746 | the stored run, if it is the thread's |
| Storage.StorageRoundTrip | core/storage.py:59-148 | loading a saved document gives back every field but the legacy ones, with an empty source or tool as its default |
| Storage.NamedStorageSurvives | core/storage.py:59-148 | with sources and tools named, only the legacy topic ids and thread id differ, and they come back empty |
| Storage.ThreadRoundTrip | core/storage.py:59-91 | the same for one thread, absent optional fields included |
| Storage.WorkspaceRoundTrip | core/storage.py:99-132 | the same for one workspace and all its threads |
| AtomicSave.LoadIsOldOrNew | core/storage.py:151-186 | over every run of saves, raising effects and crashes, a load gives the state last saved in full or one whose save began since |
| AtomicSave.CrashedSaveLoads | core/storage.py:170-186 | a crash after any effect of one save leaves the old state or the new one, whatever files were there, and the new one after the last effect |
| AtomicSave.StoppedSaveIsNotWrittenOrWritten | core/storage.py:170-186 | a save that stops after any effect leaves a load the old state or the new; the new one once the main file is replaced, the old one until then if the main file was readable |
| AtomicSave.OneFileIsEnough | core/storage.py:151-167 | after a completed save a load gives the state whatever becomes of one of the two files: gone, damaged or no state |
| AtomicSave.UnreadableRaisesExactly | core/storage.py:151-167 | a load raises if and only if neither file can be read and not both are missing |
| AtomicSave.ReplaceKeeps | core/storage.py:151-167 | replacing either file by the synced new document keeps every crash outcome old or new |
| AtomicSave.DataDir.AtomicWriteText | core/atomic_file.py:9-32 | the directory after the first effects of an atomic write, wherever it raises, without a temporary file |
| AtomicSave.DataDir.SaveStorage | core/storage.py:170-186 | the backup, then the main file |
| AtomicSave.DataDir.LoadStorage | core/storage.py:151-167 | main file, else backup, else empty or an exception |
| Reconcile.Workspace.ReconcileWithSource | bot/handlers/common.py:129-193 | the threads after a pass, and a change is reported exactly when there was one |
| Reconcile.Workspace.ClearStaleArchive | bot/handlers/common.py:69-104 | the archive mark is cleared exactly when stale |
| Reconcile.SecondPassIsQuiet | bot/handlers/common.py:107-193 | a second pass reports no change if and only if no thread was filed under an inactive key with an active id of its own |
| Reconcile.ThirdPassIsQuiet | bot/handlers/common.py:107-193 | a third pass never changes anything |
| Reconcile.ArchiveChangesExactly | bot/handlers/common.py:69-104 | when the archive mark is cleared and when it is set, both exactly |
| Reconcile.DroppedExactly | bot/handlers/common.py:137-177 | which threads a pass drops, exactly, and that of the others only the archive and active marks change |
| Reconcile.ProtectedIsKept | bot/handlers/common.py:137-177 | a thread that the app created, or that has a topic, is never dropped |
| Reconcile.MisfiledThreadChangesTwice | bot/handlers/common.py:169-183 | a workspace on which the second pass does change something |
| TextLimit.TruncateText | bot/utils.py:28-53 | keeps the longest prefix that fits, repairs it and adds the notice |
| TextLimit.FitsExactly | bot/utils.py:28-53 | the result is within the limit if and only if the text or the notice alone is |
| TextLimit.LongestFitIsMaximal | bot/utils.py:41-47 | no longer prefix fits the budget |
| TextLimit.PairedExactly | bot/utils.py:48-53 | code marks are left unpaired if and only if the kept prefix is full, odd in marks and ends in one |
| TextLimit.NoticeTellsLength | bot/utils.py:31-40 | a cut text ends in a notice with the number of characters it had |
| LaunchMethods.NormalizeLaunchMethods | config.py:399-434 | one method per entry with a command, in order, under the first free form of its id |
| LaunchMethods.UniqueId | config.py:421-425 | the search ends, with the first free id |
| LaunchMethods.IdsAreDistinct | config.py:399-434 | ids are distinct and no field is empty |
| LaunchMethods.EntryMakesMethod | config.py:404-421 | every entry with a command makes the method at its place, with that command, and a plain command is numbered by its place in the list |
| LaunchMethods.NamedIdIsKept | config.py:408-425 | an id that no earlier method has is kept |
| LaunchMethods.CaptionIsKept | config.py:408-431 | a method is shown under its label, else its name, else its id |
| LaunchMethods.NormalFormIsUnique | config.py:399-434 | the contract above leaves one result |
| LaunchMethods.NormalizingIsIdempotent | config.py:399-434 | reading a normalised list back gives the same list |

## Left out

- FirstMessage models one workspace; the records of different workspaces are independent, and the lock and the lease are shared only through admission.
- FirstMessageProofs.AtMostOneLiveSend: assumes what `Assumed` says, because the code breaks the promise without it; `RetryBreaksExactly`, `PassBreaksExactly`, `RejectionBreaksExactly` and `RecheckBreaksExactly` say when, exactly.  What it assumes of the provider's thread ids has no such converse.  It speaks of one workspace: the scan for a record looks at one, so the same id used for another directory creates and sends again.
- FirstMessageProgress.UnsentCanArrive: says that the message can arrive in some continuation, not that it does in all; a provider that never answers is not excluded.
- FirstMessageProofs.DurableAfterSend: the same, and that no entry goes for which something live was sent: a dropped record is on no disk.
- FirstMessageProofs.AtMostOneAppCreation: the same; what a dropped entry does is `PassBreaksExactly` and `SubmitCreatesAgainExactly`.  Threads of the Telegram path are created outside this promise.
- FirstMessage: a thread is its entry in the list, whatever provider id it is bound to (`ThreadRemap`); a delivery for a dropped entry ends before its send, and what is noted in the lost record is not followed.  A task whose listed entry is given another request's record is followed as if its entry had been dropped, which `Assumed` excludes.
- FirstMessageLimits.RetryBreaksExactly: of a request that has a record; a first submission has no recorded input to differ from, and what follows when the later retries differ from it is not decided.
- FollowUpSend.EachIdSentOnce: assumes fresh ids; `ReusedIdRepeatsExactly` says when a reused one is sent again.
- FollowUpSend: a thread that is listed again starts without attempts; what attempts on the dropped one note in its lost record is not followed.
- FollowUpSend: the owner-bridge router that delivers without a background task, which app requests never take.
- ThreadRemap.FailedSend: covers a failure before the send is scheduled and the failed send of a request without an id; a failed send with an id keeps the new binding.
- RunLedgerProofs.NotifiedAtMostOnce: closing events may be handled in any order and more than once, where the source handles each at most once and in order.
- RunBook.RunState.MarkRun: timestamps and the visible-event counter.
- UpdateLease.LeaseExcludesWork: promises nothing of hook-event tasks, which the code lets in under a lease; the Telegram `/new` path sends its first message after its admission is released and is outside the lease; the further busy tests of the handler are one unconstrained input.
- Provider plugins without message hooks, and the hooks themselves: unconstrained outcomes.
- Storage: JSON text is a faithful encoding, field names are an enumeration, and a field of the wrong type is refused where the code would keep it or raise another exception.
- AtomicSave: file modes, the creation of the directory and the removal of a temporary file left by a crash.
- SessionBridge.Bridge.RecordThread: previews, sources, binding status and error texts of a thread are not part of a record.
- ActivityStream.Stream.OnEvent: assumes that no earlier ordinary subscriber publishes before this one has run, so payloads come in the order of the events.
- ActivityStream: the result limit of the snapshot; an archive flag set without an event is seen with the next event of its session.
- EventBus.MessageEventBus.Deliver: keeps the invariant only through `Publish`, for subscribers that publish without keys.
- EventBus: the projections' turn bookkeeping, and subscribers that subscribe or unsubscribe while an event is published.
- OrderedDelivery: deltas carry their text only; other payload fields of a merged event are those of the first.
- ImRoutes: entry ids are text; list queries, the legacy schema rebuild and status normalisation.
- RunLedger: the provider plugins start and mark runs too (plugins/providers/builtin/codex/python/runtime_state.py:62 and runtime.py:1494), which is not part of this model.
- RunLedger: timestamps, interruptions, titles and the streaming turn's other fields.
- Reconcile: provider queries that raise leave everything unchanged and are not modelled; the save after a change is the reported flag; two keys never share one thread object.
- TextLimit: characters are Unicode scalar values, so lone surrogates do not occur.
- LaunchMethods.NormalizeLaunchMethods: entries hold text fields; fields of other types, which the source turns into text, are left out.
- Cleanup matchers, configuration merging, Telegram formatting, sockets, the notification router and the Mac app: plumbing or text handling with no state to protect.
