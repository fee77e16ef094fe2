/**
 The owner bridge and provider_session_new as a class that updates its records in place.
 Each method named in `Step` is one stretch of code: it makes exactly that step and keeps
 the invariant from which the promises follow.
*/
module SessionBridge {
  import opened Prelude
  import opened UpdateLease
  import opened FirstMessage
  import opened FirstMessageProofs

  class Bridge {
    // workspace.threads and workspace.pending_new_session
    var threads: map<ThreadId, Thread>
    var pendingNewSession: Option<Creation>
    // the storage file, the admission gate, and the coroutines under way
    var disk: Store
    var gate: Gate
    var tasks: map<TaskId, Task>
    var sends: seq<Send>
    ghost var starts: seq<RequestId>
    // the input that every retry of an app request repeats
    ghost const inputs: RequestId -> Input

    ghost function Now(): State
      reads this
    {
      State(gate, Store(threads, pendingNewSession), disk, tasks, starts, sends)
    }

    // What holds between any two stretches; SendsAtMostOnce and CreatesAtMostOnce are part of it.
    ghost predicate Valid()
      reads this
    {
      Inv(Now(), inputs)
    }

    // The stretch for e may run.
    ghost predicate Ready(e: Event)
      reads this
    {
      Valid() && Enabled(Now(), e) && Assumed(Now(), e, inputs)
    }

    constructor (ghost inputs: RequestId -> Input)
      ensures Now() == Init && this.inputs == inputs && Valid()
    {
      this.inputs := inputs;
      threads, pendingNewSession := map[], None;
      disk, gate, tasks, sends, starts := EmptyStore, IdleGate, map[], [], [];
    }

    // save_storage, with the outcome the disk gives it; false is the exception.
    method SaveStorage(outcome: Save) returns (ok: bool)
      modifies this`disk
      ensures disk == Write(old(disk), Store(threads, pendingNewSession), outcome)
      ensures ok == (outcome == Saved)
    {
      if outcome != NotWritten {
        disk := Store(threads, pendingNewSession);
      }
      ok := outcome == Saved;
    }

    method SetStatus(t: ThreadId, status: Status)
      requires t in threads && threads[t].record.Some?
      modifies this`threads
      ensures Store(threads, pendingNewSession) == WithStatus(old(Store(threads, pendingNewSession)), t, status)
    {
      var thread := threads[t];
      threads := threads[t := thread.(record := Some(thread.record.value.(status := status)))];
    }

    // The scan over ws_info.threads for a request id.
    method FindRecord(r: RequestId) returns (found: Option<ThreadId>)
      requires UniqueRequests(Store(threads, pendingNewSession))
      ensures found.Some? == HasRecord(Store(threads, pendingNewSession), r)
      ensures found.Some? ==> found.value == RecordOf(Store(threads, pendingNewSession), r)
    {
      ghost var mem := Store(threads, pendingNewSession);
      var rest := threads.Keys;
      while rest != {}
        invariant rest <= threads.Keys
        invariant forall t <- threads.Keys - rest :: !Holds(mem, t, r)
        decreases |rest|
      {
        var t :| t in rest;
        if threads[t].record.Some? && threads[t].record.value.request == r {
          assert Holds(mem, t, r);
          return Some(t);
        }
        rest := rest - {t};
      }
      return None;
    }

    method FindTask(r: RequestId) returns (running: bool)
      ensures running == HasAppTask(Now(), r)
    {
      var rest := tasks.Keys;
      while rest != {}
        invariant rest <= tasks.Keys
        invariant forall k <- tasks.Keys - rest :: !(tasks[k].app && tasks[k].request == r)
        decreases |rest|
      {
        var k :| k in rest;
        if tasks[k].app && tasks[k].request == r {
          return true;
        }
        rest := rest - {k};
      }
      return false;
    }

    method Spawn(k: TaskId, r: RequestId, input: Input)
      modifies this`tasks, this`gate
      ensures tasks == old(tasks)[k := Task(true, r, input, Queued)]
      ensures gate == UpdateLease.Spawn(old(gate), k)
    {
      tasks := tasks[k := Task(true, r, input, Queued)];
      gate := gate.(tasks := gate.tasks + {k});
    }

    method EndTask(k: TaskId)
      modifies this`tasks, this`gate
      ensures Now() == Ended(old(Now()), k)
    {
      tasks := tasks - {k};
      gate := gate.(tasks := gate.tasks - {k});
    }

    method Suspend(k: TaskId, pc: Pc)
      requires k in tasks
      modifies this`tasks
      ensures Now() == At(old(Now()), k, pc)
    {
      tasks := tasks[k := tasks[k].(pc := pc)];
    }

    // _handle_admitted_start_session_message, after its last await.
    method HandleStartSessionMessage(ghost h: nat, k: TaskId, r: RequestId, input: Input, save: Save)
      requires Ready(Submit(h, k, r, input, save))
      modifies this
      ensures Now() == Step(old(Now()), Submit(h, k, r, input, save)) && Valid()
    {
      StepKeeps(Now(), Submit(h, k, r, input, save), inputs);
      var pending := FindTask(r);
      if pending {
        return;
      }
      var savedThread := FindRecord(r);
      if savedThread.None? {
        if pendingNewSession.Some? && pendingNewSession.value.status != CreationFailed {
          return;
        }
        pendingNewSession := Some(Creation(r, input, CreationPreparing));
        var ok := SaveStorage(save);
        if !ok {
          pendingNewSession := Some(pendingNewSession.value.(status := CreationFailed));
          return;
        }
      }
      Spawn(k, r, input);
    }

    // The handlers around start_real_provider_thread, when it raises.
    method HandleStartFailure(k: TaskId, save: Save)
      requires k in tasks && UniqueRequests(Now().mem)
      modifies this
      ensures Now() == Raised(old(Now()), k, save)
    {
      var task := tasks[k];
      var savedThread := FindRecord(task.request);
      if savedThread.Some? {
        if task.app {
          SetStatus(savedThread.value, Failed);
        }
        var _ := SaveStorage(save);
      } else if task.app && pendingNewSession.Some? && pendingNewSession.value.request == task.request {
        pendingNewSession := Some(pendingNewSession.value.(status := CreationUnknown));
        var _ := SaveStorage(save);
      }
      EndTask(k);
    }

    // Releases the lock and the nested admission; the app handler forgets the reservation.
    method FinishStart(k: TaskId, t: ThreadId)
      requires k in tasks
      modifies this
      ensures Now() == Obtained(old(Now()), k, t)
    {
      gate := Release(gate, Nested(k));
      if tasks[k].app && pendingNewSession.Some? && pendingNewSession.value.request == tasks[k].request {
        pendingNewSession := None;
      }
      Suspend(k, HasThread(t));
    }

    // start_real_provider_thread up to the lock.
    method BeginStart(k: TaskId, save: Save)
      requires Ready(Begin(k, save))
      modifies this
      ensures Now() == Step(old(Now()), Begin(k, save)) && Valid()
    {
      StepKeeps(Now(), Begin(k, save), inputs);
      if gate.deadline > gate.now {
        HandleStartFailure(k, save);
        return;
      }
      gate := gate.(dispatches := gate.dispatches + 1, open := gate.open + {Nested(k)});
      Suspend(k, WaitingLock);
    }

    // _start_real_provider_thread under the lock, up to start_thread.
    method ScanOrCreate(k: TaskId, save: Save)
      requires Ready(Acquire(k, save))
      modifies this
      ensures Now() == Step(old(Now()), Acquire(k, save)) && Valid()
    {
      StepKeeps(Now(), Acquire(k, save), inputs);
      var task := tasks[k];
      var known := FindRecord(task.request);
      if known.Some? {
        if threads[known.value].record.value.input != task.input {
          gate := Release(gate, Nested(k));
          HandleStartFailure(k, save);
        } else {
          FinishStart(k, known.value);
        }
        return;
      }
      starts := starts + [task.request];
      Suspend(k, Creating);
    }

    // _start_real_provider_thread after start_thread has returned a thread.
    method RecordThread(k: TaskId, t: ThreadId, save: Save, save2: Save)
      requires k in tasks && UniqueRequests(Now().mem) && !HasRecord(Now().mem, tasks[k].request)
      modifies this
      ensures Now() == CreateStep(old(Now()), k, Created(t), save, save2)
    {
      var task := tasks[k];
      ghost var before := Now().mem;
      threads := threads[t := Thread(false, Some(NewRecord(task)))];
      assert forall u <- before.threads :: !Holds(before, u, task.request);
      var ok := SaveStorage(save);
      if ok {
        FinishStart(k, t);
      } else {
        gate := Release(gate, Nested(k));
        HandleStartFailure(k, save2);
      }
    }

    // _start_real_provider_thread once start_thread has returned, raised or been cancelled.
    method FinishCreation(k: TaskId, result: CreateResult, save: Save, save2: Save)
      requires Ready(CreateDone(k, result, save, save2))
      modifies this
      ensures Now() == Step(old(Now()), CreateDone(k, result, save, save2)) && Valid()
    {
      StepKeeps(Now(), CreateDone(k, result, save, save2), inputs);
      assert TaskOk(Now(), k, inputs);
      match result {
        case Created(t) => RecordThread(k, t, save, save2);
        case CreateError =>
          gate := Release(gate, Nested(k));
          HandleStartFailure(k, save2);
        case CreateCancelled =>
          gate := Release(gate, Nested(k));
          EndTask(k);
      }
    }

    // send_started_provider_thread_message up to its first await.
    method EnterSendStarted(k: TaskId, save: Save)
      requires Ready(EnterSend(k, save))
      modifies this
      ensures Now() == Step(old(Now()), EnterSend(k, save)) && Valid()
    {
      StepKeeps(Now(), EnterSend(k, save), inputs);
      MarkPreparing(k, save);
    }

    // Whether the entry that a task works on is still in the list, with its record.
    predicate Listed(k: TaskId)
      requires k in tasks && PastScan(tasks[k].pc)
      reads this
    {
      var t := tasks[k].pc.t;
      t in threads && threads[t].record.Some? && threads[t].record.value.request == tasks[k].request
    }

    // What the task notes in a record that is no longer listed is lost with it.
    method EndDetached(k: TaskId, save: Save)
      modifies this
      ensures Now() == DetachedEnd(old(Now()), k, save)
    {
      var _ := SaveStorage(save);
      EndTask(k);
    }

    method MarkPreparing(k: TaskId, save: Save)
      requires k in tasks && tasks[k].pc.HasThread?
      modifies this
      ensures Now() == EnterSendStep(old(Now()), k, save)
    {
      if !Listed(k) {
        EndDetached(k, save);
        return;
      }
      var t := tasks[k].pc.t;
      var status := threads[t].record.value.status;
      if status == Sent {
        var _ := SaveStorage(save);
        EndTask(k);
        return;
      }
      if status in {Preparing, Sending, Unknown} {
        EndTask(k);
        return;
      }
      SetStatus(t, Preparing);
      var ok := SaveStorage(save);
      if !ok {
        SetStatus(t, Pending);
        EndTask(k);
        return;
      }
      Suspend(k, BeforeSend(t));
    }

    method SettleRecord(k: TaskId, t: ThreadId, status: Status, save: Save)
      requires t in threads && threads[t].record.Some?
      modifies this
      ensures Now() == Settle(old(Now()), k, t, status, save)
    {
      SetStatus(t, status);
      var _ := SaveStorage(save);
      EndTask(k);
    }

    // From the last check before message_hooks.send to the call itself.
    method DeliverPrepared(k: TaskId, outcome: PrepareResult, save: Save, save2: Save)
      requires Ready(PrepareDone(k, outcome, save, save2))
      modifies this
      ensures Now() == Step(old(Now()), PrepareDone(k, outcome, save, save2)) && Valid()
    {
      StepKeeps(Now(), PrepareDone(k, outcome, save, save2), inputs);
      MarkSending(k, outcome, save, save2);
    }

    method MarkSending(k: TaskId, outcome: PrepareResult, save: Save, save2: Save)
      requires k in tasks && tasks[k].pc.BeforeSend?
      modifies this
      ensures Now() == PrepareStep(old(Now()), k, outcome, save, save2)
    {
      if !Listed(k) {
        EndDetached(k, save2);
        return;
      }
      var t := tasks[k].pc.t;
      if outcome.Interrupted? {
        SettleRecord(k, t, Unknown, save2);
        return;
      }
      if outcome.RejectedEarly? || threads[t].archived {
        SettleRecord(k, t, Failed, save2);
        return;
      }
      SetStatus(t, Sending);
      var ok := SaveStorage(save);
      if !ok {
        SettleRecord(k, t, Failed, save2);
        return;
      }
      sends := sends + [NewSend(tasks[k].request, t)];
      Suspend(k, InSend(t, |sends| - 1));
    }

    // What send_started_provider_thread_message does with the outcome of the send.
    method FinishSend(k: TaskId, result: SendResult, save: Save)
      requires Ready(SendDone(k, result, save))
      modifies this
      ensures Now() == Step(old(Now()), SendDone(k, result, save)) && Valid()
    {
      StepKeeps(Now(), SendDone(k, result, save), inputs);
      match result {
        case SendAccepted => FinishWith(k, Sent, result, save);
        case SendRejected => FinishWith(k, Failed, result, save);
        case SendRaised => FinishWith(k, Unknown, result, save);
      }
    }

    method FinishWith(k: TaskId, status: Status, result: SendResult, save: Save)
      requires k in tasks && tasks[k].pc.InSend? && tasks[k].pc.i < |sends|
      modifies this
      ensures var s := old(Now());
        var pc := s.tasks[k].pc;
        var s1 := s.(sends := s.sends[pc.i := Concluded(s.sends[pc.i], result)]);
        Now() == if Detached(s1, k) then DetachedEnd(s1, k, save) else Settle(s1, k, pc.t, status, save)
    {
      var t, i := tasks[k].pc.t, tasks[k].pc.i;
      sends := sends[i := Concluded(sends[i], result)];
      if !Listed(k) {
        EndDetached(k, save);
      } else {
        SettleRecord(k, t, status, save);
      }
    }

    // record_delivery_receipt for a first message, with the answer to a try within sends[call].
    method RecordDeliveryReceipt(t: ThreadId, call: nat, verdict: Verdict, matches: bool, save: Save)
      requires Ready(ReceiptStored(t, call, verdict, matches, save))
      modifies this
      ensures Now() == Step(old(Now()), ReceiptStored(t, call, verdict, matches, save)) && Valid()
    {
      StepKeeps(Now(), ReceiptStored(t, call, verdict, matches, save), inputs);
      SetReceipt(t, Some(Receipt(verdict, call, matches)));
      sends := sends[call := Told(sends[call], verdict)];
      var _ := SaveStorage(save);
    }

    method SetReceipt(t: ThreadId, receipt: Option<Receipt>)
      requires t in threads && threads[t].record.Some?
      modifies this`threads
      ensures Store(threads, pendingNewSession) == WithReceipt(old(Store(threads, pendingNewSession)), t, receipt)
    {
      var thread := threads[t];
      threads := threads[t := thread.(record := Some(thread.record.value.(receipt := receipt)))];
    }

    // Within message_hooks.send, before another try: the receipt of the last one is cleared,
    // and if that cannot be saved the call ends without a further try.
    method ClearReceiptForTry(k: TaskId, save: Save)
      requires Ready(TryAgain(k, save))
      modifies this
      ensures Now() == Step(old(Now()), TryAgain(k, save)) && Valid()
    {
      StepKeeps(Now(), TryAgain(k, save), inputs);
      ClearForTry(k, save);
    }

    method ClearForTry(k: TaskId, save: Save)
      requires k in tasks && tasks[k].pc.InSend? && tasks[k].pc.i < |sends|
      modifies this
      ensures Now() == TryStep(old(Now()), k, save)
    {
      var t, i := tasks[k].pc.t, tasks[k].pc.i;
      if Listed(k) && !threads[t].archived && threads[t].record.value.receipt.Some? {
        SetReceipt(t, None);
        var ok := SaveStorage(save);
        if !ok {
          return;
        }
      }
      sends := sends[i := Untold(sends[i])];
    }

    // _handle_recheck_session_send for a first message.
    method RecheckSessionSend(t: ThreadId, save: Save)
      requires Ready(Recheck(t, save))
      modifies this
      ensures Now() == Step(old(Now()), Recheck(t, save)) && Valid()
    {
      StepKeeps(Now(), Recheck(t, save), inputs);
      var record := threads[t].record.value;
      if threads[t].archived || record.receipt.None? || record.status in {Pending, Preparing, Sending} {
        return;
      }
      if !record.receipt.value.matches {
        return;
      }
      SetStatus(t, if record.receipt.value.verdict.VerdictSent? then Sent else Failed);
      var _ := SaveStorage(save);
    }

    // restore_send_recoveries on a storage that has just been loaded after a crash in state
    // s.  Whatever becomes of its saves, the memory is repaired and the disk holds some of
    // the repairs.
    method RestoreSendRecoveries(ghost s: State, order: seq<ThreadId>, outcomes: seq<Save>)
      requires Inv(s, inputs)
      requires Now() == State(Gate(s.gate.now, 0, 0, {}, {}, {}), s.disk, s.disk, map[], s.starts, CutOff(s.sends))
      requires forall t :: t in order <==> t in threads
      requires |outcomes| == |order| + 1
      modifies this`threads, this`pendingNewSession, this`disk
      ensures PartlyRestored(s.disk, disk) && Now() == Step(s, Crash(disk)) && Valid()
    {
      RepairRecords(order, outcomes);
      StepKeeps(s, Crash(disk), inputs);
    }

    method RepairRecords(order: seq<ThreadId>, outcomes: seq<Save>)
      requires Now().mem == disk
      requires forall t :: t in order <==> t in threads
      requires |outcomes| == |order| + 1
      modifies this`threads, this`pendingNewSession, this`disk
      ensures Now().mem == Restored(old(disk))
      ensures PartlyRestored(old(disk), disk)
    {
      ghost var before := disk;
      RestorePendingCreation(outcomes[0]);
      for i := 0 to |order|
        invariant pendingNewSession == RestoredCreation(before)
        invariant PartlyRestored(before, Now().mem) && PartlyRestored(before, disk)
        invariant forall j :: 0 <= j < i ==> threads[order[j]] == RestoredThread(before.threads[order[j]])
      {
        RestoreThread(order[i], outcomes[i + 1], before);
      }
    }

    method RestorePendingCreation(save: Save)
      requires Now().mem == disk
      modifies this`pendingNewSession, this`disk
      ensures pendingNewSession == RestoredCreation(old(disk))
      ensures PartlyRestored(old(disk), disk)
    {
      if pendingNewSession.Some? {
        var claimed := RequestIsRecorded(pendingNewSession.value.request);
        if claimed {
          pendingNewSession := None;
        } else if pendingNewSession.value.status == CreationPreparing {
          pendingNewSession := Some(pendingNewSession.value.(status := CreationUnknown));
          var _ := SaveStorage(save);
        }
      }
    }

    // One round of the loop over the threads.
    method RestoreThread(t: ThreadId, save: Save, ghost before: Store)
      requires t in threads && pendingNewSession == RestoredCreation(before)
      requires PartlyRestored(before, Now().mem) && PartlyRestored(before, disk)
      modifies this`threads, this`disk
      ensures threads == old(threads)[t := RestoredThread(before.threads[t])]
      ensures PartlyRestored(before, Now().mem) && PartlyRestored(before, disk)
    {
      var thread := threads[t];
      if !thread.archived && thread.record.Some? && thread.record.value.status in {Pending, Preparing, Sending} {
        SetStatus(t, if thread.record.value.status == Sending then Unknown else Failed);
        assert threads == old(threads)[t := RestoredThread(before.threads[t])];
        var _ := SaveStorage(save);
      }
    }

    method RequestIsRecorded(r: RequestId) returns (yes: bool)
      ensures yes == HasRecord(Now().mem, r)
    {
      var rest := threads.Keys;
      while rest != {}
        invariant rest <= threads.Keys
        invariant forall t <- threads.Keys - rest :: !Holds(Now().mem, t, r)
        decreases |rest|
      {
        var t :| t in rest;
        if threads[t].record.Some? && threads[t].record.value.request == r {
          assert Holds(Now().mem, t, r);
          return true;
        }
        rest := rest - {t};
      }
      return false;
    }
  }
}
