/**
 What every run of the first-message protocol keeps.

 Main results: AtMostOneLiveSend, DurableAfterSend, AtMostOneAppCreation,
 StartOnlyUnderOwnReservation.  FirstMessageLimits shows for each way out of `Assumed` that
 the promise breaks exactly there.
*/
module FirstMessageProofs {
  import opened Prelude
  import opened UpdateLease
  import opened FirstMessage

  // A send that the provider did not explicitly reject.
  predicate Live(send: Send) {
    send.delivery != Rejected
  }

  predicate SendsAtMostOnce(sends: seq<Send>) {
    forall i, j :: 0 <= i < j < |sends| && sends[i].request == sends[j].request ==> !Live(sends[i]) || !Live(sends[j])
  }

  predicate CreatesAtMostOnce(starts: seq<RequestId>) {
    forall i, j :: 0 <= i < j < |starts| && starts[i].App? ==> starts[i] != starts[j]
  }

  // ---- what the environment promises ----

  // `inputs` is the input that every retry of an app request repeats.
  ghost predicate Assumed(s: State, e: Event, inputs: RequestId -> Input) {
    match e
    case Submit(_, _, r, input, save) => input == inputs(r) || RetryIsHarmless(s, r, save)
    case CreateDone(_, Created(t), _, _) => t in s.mem.threads ==> ReplaceIsHarmless(s, t)
    case ListPass(kept) => PassIsHarmless(s, kept)
    case SendDone(k, SendRejected, _) => !KnownAccepted(s, k)
    case Recheck(t, _) => t in s.mem.threads ==> ReceiptIsCurrent(s, t)
    case _ => true
  }

  // A retry with other input does no harm when it joins a running task, is refused or cannot
  // be saved, or when nobody can be sending, or come to send, before it marks the record as
  // failed.
  predicate RetryIsHarmless(s: State, r: RequestId, save: Save) {
    || HasAppTask(s, r)
    || if HasRecord(s.mem, r) then MismatchIsHarmless(s, r) else Blocks(s.mem.creation) || save != Saved
  }

  // A Telegram resume repeats the text only, so it never matches an input with attachments.
  predicate MismatchIsHarmless(s: State, r: RequestId) {
    forall t <- s.mem.threads :: Holds(s.mem, t, r) ==>
      && NothingLiveFor(s.sends, t)
      && NobodyDelivers(s, t)
      && (s.mem.threads[t].record.value.input.attachments != [] || Stuck(s, t))
  }

  // Nobody enters the delivery of the record, and nothing makes it "failed": it is left at
  // "preparing" or "sending", or it is settled without any call that a receipt could be about.
  predicate Stuck(s: State, t: ThreadId)
    requires t in s.mem.threads && s.mem.threads[t].record.Some?
  {
    || StatusOf(s.mem, t) in {Preparing, Sending}
    || (StatusOf(s.mem, t) in {Unknown, Sent} && NoWord(s.sends, t, s.mem.threads[t].record.value))
  }

  predicate NoWord(sends: seq<Send>, t: ThreadId, record: Record) {
    && (forall i :: 0 <= i < |sends| && sends[i].thread == t ==> sends[i].request != record.request)
    && (record.receipt.Some? ==> record.receipt.value.verdict.VerdictSent?)
  }

  predicate NobodyDelivers(s: State, t: ThreadId) {
    forall k <- s.tasks :: Delivering(s.tasks[k].pc) ==> s.tasks[k].pc.t != t
  }

  // A pass may drop the record of a Telegram request for which nothing live was sent.  It may
  // drop the record of an app request when no task for it is still to look for the record,
  // and no further app creation can begin: another one is open, and nobody can close it.
  predicate PassIsHarmless(s: State, kept: Store) {
    forall t <- s.mem.threads :: t !in kept.threads && s.mem.threads[t].record.Some? ==>
      LossIsHarmless(s, kept, t, s.mem.threads[t].record.value.request)
  }

  predicate LossIsHarmless(s: State, kept: Store, t: ThreadId, r: RequestId) {
    if r.App? then !Waited(s, r) && Frozen(kept) && !BeingCreated(s, kept.creation.value.request)
    else NothingLiveFor(s.sends, t)
  }

  // Some task for r has yet to look for its record.
  predicate Waited(s: State, r: RequestId) {
    exists k <- s.tasks :: BeforeScan(s.tasks[k].pc) && s.tasks[k].request == r
  }

  // The app handler is on its way to a record for r.
  predicate BeingCreated(s: State, r: RequestId) {
    exists k <- s.tasks :: s.tasks[k].app && !PastScan(s.tasks[k].pc) && s.tasks[k].request == r
  }

  predicate BeforeScan(pc: Pc) {
    pc.Queued? || pc.WaitingLock?
  }

  // A creation is open and has no record yet.
  predicate Frozen(s: Store) {
    Blocks(s.creation) && !HasRecord(s, s.creation.value.request)
  }

  // The provider may name a thread that is in the list already, if its record may go, nothing
  // live was sent for it and no task is at work on it.
  predicate ReplaceIsHarmless(s: State, t: ThreadId) {
    && PassIsHarmless(s, Without(s.mem, t)) && NothingLiveFor(s.sends, t)
    && forall k <- s.tasks :: PastScan(s.tasks[k].pc) ==> s.tasks[k].pc.t != t
  }

  function Without(s: Store, t: ThreadId): Store {
    s.(threads := s.threads - {t})
  }

  predicate NothingLiveFor(sends: seq<Send>, t: ThreadId) {
    forall i :: 0 <= i < |sends| && sends[i].thread == t ==> !Live(sends[i])
  }

  predicate NotSent(sends: seq<Send>, r: RequestId) {
    forall i :: 0 <= i < |sends| && sends[i].request == r ==> !Live(sends[i])
  }

  // A receipt has said that the send this task awaits was accepted.
  predicate KnownAccepted(s: State, k: TaskId) {
    && k in s.tasks && s.tasks[k].pc.InSend? && s.tasks[k].pc.i < |s.sends| && !Detached(s, k)
    && s.sends[s.tasks[k].pc.i].delivery == InFlight(Some(VerdictSent))
  }

  // A stored "failed" that a recheck goes by is about the last call that may have arrived, and
  // settles it: neither that call nor a later one for the entry is live.
  predicate ReceiptIsCurrent(s: State, t: ThreadId)
    requires t in s.mem.threads
  {
    Rechecks(s.mem.threads[t]) && s.mem.threads[t].record.value.receipt.value.verdict.VerdictFailed? ==>
      forall i :: s.mem.threads[t].record.value.receipt.value.call <= i < |s.sends| && s.sends[i].thread == t
        ==> !Live(s.sends[i])
  }

  // ---- invariant: stores ----

  predicate UniqueRequests(s: Store) {
    forall t, u :: t in s.threads && u in s.threads && t != u
      && s.threads[t].record.Some? && s.threads[u].record.Some?
      ==> s.threads[t].record.value.request != s.threads[u].record.value.request
  }

  // Records hold the input that is repeated, and only those of started app requests exist.
  ghost predicate RecordOk(record: Record, starts: seq<RequestId>, inputs: RequestId -> Input) {
    if record.request.App? then record.request in starts && record.input == inputs(record.request)
    else record.input.attachments == []
  }

  ghost predicate RecordsOk(s: Store, starts: seq<RequestId>, inputs: RequestId -> Input) {
    forall t <- s.threads :: s.threads[t].record.Some? ==> RecordOk(s.threads[t].record.value, starts, inputs)
  }

  // The record of a live send says so, unless it was an app request's and has been dropped.
  predicate Guards(s: Store, send: Send) {
    Live(send) ==>
      || (Holds(s, send.thread, send.request) && Committed(StatusOf(s, send.thread)))
      || (send.request.App? && send.thread !in s.threads && !HasRecord(s, send.request))
  }

  // A started app request has its record, or no app creation can begin.
  predicate Claimed(s: Store, r: RequestId) {
    HasRecord(s, r) || Frozen(s)
  }

  // Of the calls before the one a stored "failed" is about, none may have arrived.
  predicate ReceiptsOk(s: Store, sends: seq<Send>) {
    forall t <- s.threads :: s.threads[t].record.Some? ==> ReceiptOk(s.threads[t].record.value.receipt, t, sends)
  }

  predicate ReceiptOk(receipt: Option<Receipt>, t: ThreadId, sends: seq<Send>) {
    receipt.Some? && receipt.value.verdict.VerdictFailed? ==>
      && receipt.value.call <= |sends|
      && forall i :: 0 <= i < receipt.value.call && sends[i].thread == t ==> !Live(sends[i])
  }

  // What holds of the memory and of the disk alike.
  ghost predicate Sound(s: Store, sends: seq<Send>, starts: seq<RequestId>, inputs: RequestId -> Input) {
    && UniqueRequests(s)
    && RecordsOk(s, starts, inputs)
    && ReceiptsOk(s, sends)
    && (s.creation.Some? ==> s.creation.value.request.App?)
    && (forall i :: 0 <= i < |sends| ==> Guards(s, sends[i]))
    && (forall r :: r in starts && r.App? ==> Claimed(s, r))
  }

  // ---- invariant: tasks ----

  predicate Delivering(pc: Pc) {
    pc.BeforeSend? || pc.InSend?
  }

  // Every started app request but r has its record.
  predicate OthersRecorded(s: State, r: RequestId) {
    forall q :: q in s.starts && q.App? && q != r ==> HasRecord(s.mem, q)
  }

  // A creation that has been reserved, but for which start_thread has not been called.
  predicate ReadyToCreate(s: State, r: RequestId) {
    && s.mem.creation.Some? && s.mem.creation.value.request == r
    && s.mem.creation.value.status == CreationPreparing
    && Reserved(s.disk, r)
    && r !in s.starts
    && OthersRecorded(s, r)
  }

  // A creation under way; its record will end the reservation.
  predicate Resolving(s: State, r: RequestId) {
    Reserved(s.mem, r) && r in s.starts && OthersRecorded(s, r)
  }

  ghost predicate ScanOk(s: State, task: Task, inputs: RequestId -> Input) {
    if !task.app then task.request.App? ==> HasRecord(s.mem, task.request)
    else if HasRecord(s.mem, task.request) then
      task.input == inputs(task.request) || MismatchIsHarmless(s, task.request)
    else ReadyToCreate(s, task.request) && task.input == inputs(task.request)
  }

  ghost predicate CreationOk(s: State, task: Task, inputs: RequestId -> Input) {
    && !HasRecord(s.mem, task.request) && NotSent(s.sends, task.request)
    && (task.request.App? ==> task.app)
    && (task.app ==> task.input == inputs(task.request) && Resolving(s, task.request))
  }

  // The entry is still in the list, with the task's own record, or has been dropped.
  predicate EntryOk(s: State, task: Task, t: ThreadId) {
    t in s.mem.threads ==>
      Holds(s.mem, t, task.request) && s.mem.threads[t].record.value.input == task.input
  }

  predicate DeliveryOk(s: State, task: Task) {
    match task.pc
    case BeforeSend(t) => t in s.mem.threads && s.mem.threads[t].record.Some? ==> StatusOf(s.mem, t) == Preparing
    case InSend(t, i) =>
      && (t in s.mem.threads && s.mem.threads[t].record.Some? ==> StatusOf(s.mem, t) == Sending)
      && i < |s.sends| && s.sends[i].request == task.request && s.sends[i].thread == t
      && s.sends[i].delivery.InFlight? && OnlyLiveFor(s.sends, t, i)
    case _ => true
  }

  ghost predicate PlaceOk(s: State, task: Task, inputs: RequestId -> Input) {
    match task.pc
    case Queued | WaitingLock => ScanOk(s, task, inputs)
    case Creating => CreationOk(s, task, inputs)
    case _ => EntryOk(s, task, task.pc.t) && DeliveryOk(s, task)
  }

  predicate GateOk(g: Gate, k: TaskId, task: Task) {
    && (task.app ==> k in g.tasks)
    && ((task.pc.WaitingLock? || task.pc.Creating?) <==> Nested(k) in g.open)
  }

  ghost predicate TaskOk(s: State, k: TaskId, inputs: RequestId -> Input)
    requires k in s.tasks
  {
    && (if s.tasks[k].app then s.tasks[k].request.App? else s.tasks[k].input.attachments == [])
    && GateOk(s.gate, k, s.tasks[k])
    && PlaceOk(s, s.tasks[k], inputs)
  }

  predicate OnlyLiveFor(sends: seq<Send>, t: ThreadId, i: nat) {
    forall j :: 0 <= j < |sends| && sends[j].thread == t && j != i ==> !Live(sends[j])
  }

  predicate Apart(a: Task, b: Task) {
    && !(a.app && b.app && a.request == b.request)
    && !(a.pc.Creating? && b.pc.Creating?)
    && !(Delivering(a.pc) && Delivering(b.pc) && a.pc.t == b.pc.t)
  }

  ghost predicate TasksOk(s: State, inputs: RequestId -> Input) {
    && (forall k <- s.tasks :: TaskOk(s, k, inputs))
    && (forall k, l :: k in s.tasks && l in s.tasks && k != l ==> Apart(s.tasks[k], s.tasks[l]))
  }

  // A call for an entry is made only when none before it can have arrived.
  predicate LastOnly(sends: seq<Send>) {
    forall i, j :: 0 <= i < j < |sends| && sends[i].thread == sends[j].thread ==> !Live(sends[i])
  }

  predicate LogsOk(sends: seq<Send>, starts: seq<RequestId>) {
    && SendsAtMostOnce(sends)
    && LastOnly(sends)
    && CreatesAtMostOnce(starts)
    && forall i :: 0 <= i < |sends| && sends[i].request.App? ==> sends[i].request in starts
  }

  ghost predicate Inv(s: State, inputs: RequestId -> Input) {
    && Exclusive(s.gate)
    && Sound(s.mem, s.sends, s.starts, inputs)
    && Sound(s.disk, s.sends, s.starts, inputs)
    && TasksOk(s, inputs)
    && LogsOk(s.sends, s.starts)
  }

  // ---- stores ----

  // Every entry stays, and every record with its request and input.
  predicate SameEntries(a: Store, b: Store) {
    forall t <- a.threads :: t in b.threads && (a.threads[t].record.Some? ==>
      && b.threads[t].record.Some?
      && b.threads[t].record.value.request == a.threads[t].record.value.request
      && b.threads[t].record.value.input == a.threads[t].record.value.input)
  }

  lemma KeptRecord(s: Store, s': Store, r: RequestId)
    requires SameEntries(s, s') && HasRecord(s, r)
    ensures HasRecord(s', r)
  {
    var t :| t in s.threads && Holds(s, t, r);
    assert Holds(s', t, r);
  }

  // b has the records of a and no others.
  predicate SameRecords(a: Store, b: Store) {
    && SameEntries(a, b)
    && forall t <- b.threads :: b.threads[t].record.Some? ==> t in a.threads && a.threads[t].record.Some?
  }

  lemma SameHolders(a: Store, b: Store, r: RequestId)
    requires SameRecords(a, b)
    ensures HasRecord(a, r) <==> HasRecord(b, r)
    ensures forall t :: Holds(a, t, r) <==> Holds(b, t, r)
  {
    assert forall t :: Holds(a, t, r) <==> Holds(b, t, r);
    assert forall t :: Holds(a, t, r) ==> t in a.threads && t in b.threads;
  }

  // With the same records, a store stays sound if its creation blocks as before and no record
  // of a live send loses its status.
  lemma SameRecordsSound(a: Store, b: Store, sends: seq<Send>, starts: seq<RequestId>, inputs: RequestId -> Input)
    requires Sound(a, sends, starts, inputs) && SameRecords(a, b)
    requires forall r :: Reserved(a, r) ==> Reserved(b, r)
    requires b.creation.Some? ==> b.creation.value.request.App?
    requires ReceiptsOk(b, sends)
    requires forall t <- b.threads :: t !in a.threads ==> NothingLiveFor(sends, t)
    requires forall t <- a.threads :: a.threads[t].record.Some? ==>
      Committed(StatusOf(b, t)) || !Committed(StatusOf(a, t)) || NothingLiveFor(sends, t)
    ensures Sound(b, sends, starts, inputs)
  {
    forall r | r in starts && r.App? ensures Claimed(b, r) {
      assert Claimed(a, r);
      SameHolders(a, b, r);
      if Frozen(a) {
        assert Reserved(b, a.creation.value.request);
        SameHolders(a, b, a.creation.value.request);
      }
    }
    forall i | 0 <= i < |sends| ensures Guards(b, sends[i]) {
      assert Guards(a, sends[i]);
      SameHolders(a, b, sends[i].request);
    }
  }

  // Changing a status keeps a store sound unless it forgets a live send.
  lemma StatusChange(s: Store, t: ThreadId, st: Status, sends: seq<Send>, starts: seq<RequestId>,
                     inputs: RequestId -> Input)
    requires Sound(s, sends, starts, inputs)
    requires t in s.threads && s.threads[t].record.Some?
    requires Committed(st) || NothingLiveFor(sends, t)
    ensures Sound(WithStatus(s, t, st), sends, starts, inputs) && SameRecords(s, WithStatus(s, t, st))
  {
    SameRecordsSound(s, WithStatus(s, t, st), sends, starts, inputs);
  }

  lemma NoLiveSend(s: Store, t: ThreadId, sends: seq<Send>, starts: seq<RequestId>, inputs: RequestId -> Input)
    requires Sound(s, sends, starts, inputs)
    requires t in s.threads && s.threads[t].record.Some? && !Committed(StatusOf(s, t))
    ensures NothingLiveFor(sends, t) && NotSent(sends, s.threads[t].record.value.request)
  {
    var r := s.threads[t].record.value.request;
    assert Holds(s, t, r);
    forall i | 0 <= i < |sends| && (sends[i].thread == t || sends[i].request == r) ensures !Live(sends[i]) {
      assert Guards(s, sends[i]);
    }
  }

  lemma RestoredIsSound(s: Store, s': Store, sends: seq<Send>, starts: seq<RequestId>, inputs: RequestId -> Input)
    requires Sound(s, sends, starts, inputs)
    requires PartlyRestored(s, s')
    ensures Sound(s', sends, starts, inputs)
  {
    assert SameRecords(s, s');
    forall r | r in starts && r.App? ensures Claimed(s', r) {
      assert Claimed(s, r);
      SameHolders(s, s', r);
      if Frozen(s) { SameHolders(s, s', s.creation.value.request); }
    }
    forall i | 0 <= i < |sends| ensures Guards(s', sends[i]) {
      assert Guards(s, sends[i]);
      SameHolders(s, s', sends[i].request);
    }
  }

  // The log as it is known later: the same calls, and none live that was not.
  predicate LaterLog(sends: seq<Send>, sends': seq<Send>) {
    && |sends'| == |sends|
    && forall i :: 0 <= i < |sends| ==> SameCall(sends'[i], sends[i]) && (Live(sends'[i]) ==> Live(sends[i]))
  }

  predicate SameCall(a: Send, b: Send) {
    a.request == b.request && a.thread == b.thread
  }

  lemma LogUpdate(s: Store, sends: seq<Send>, sends': seq<Send>, starts: seq<RequestId>, inputs: RequestId -> Input)
    requires Sound(s, sends, starts, inputs) && LogsOk(sends, starts) && LaterLog(sends, sends')
    ensures Sound(s, sends', starts, inputs) && LogsOk(sends', starts)
  {
    forall i | 0 <= i < |sends'| ensures Guards(s, sends'[i]) {
      assert Guards(s, sends[i]);
    }
  }

  // ---- what a task needs of the rest ----

  // The task does not notice the step from s to s'.
  ghost predicate Unnoticed(s: State, s': State, task: Task, inputs: RequestId -> Input) {
    && SameEntries(s.mem, s'.mem)
    && match task.pc
       case Queued | WaitingLock =>
         task.app ==>
           && (ReadyToCreate(s, task.request) ==> ReadyToCreate(s', task.request))
           && (task.input != inputs(task.request) && MismatchIsHarmless(s, task.request)
               ==> MismatchIsHarmless(s', task.request))
       case Creating =>
         && !HasRecord(s'.mem, task.request)
         && (NotSent(s.sends, task.request) ==> NotSent(s'.sends, task.request))
         && (task.app && Resolving(s, task.request) ==> Resolving(s', task.request))
       case _ =>
         && (task.pc.t in s'.mem.threads ==> task.pc.t in s.mem.threads)
         && (Delivering(task.pc) && Holds(s.mem, task.pc.t, task.request) ==>
               StatusOf(s'.mem, task.pc.t) == StatusOf(s.mem, task.pc.t))
         && (task.pc.InSend? ==> SendUnnoticed(s.sends, s'.sends, task.pc.t, task.pc.i))
  }

  predicate SendUnnoticed(sends: seq<Send>, sends': seq<Send>, t: ThreadId, i: nat) {
    i < |sends| ==>
      && i < |sends'| && SameCall(sends'[i], sends[i])
      && (sends[i].delivery.InFlight? ==> sends'[i].delivery.InFlight?)
      && (OnlyLiveFor(sends, t, i) ==> OnlyLiveFor(sends', t, i))
  }

  lemma StillInPlace(s: State, s': State, task: Task, inputs: RequestId -> Input)
    requires PlaceOk(s, task, inputs) && Unnoticed(s, s', task, inputs)
    ensures PlaceOk(s', task, inputs)
  {
    if HasRecord(s.mem, task.request) { KeptRecord(s.mem, s'.mem, task.request); }
  }

  // The others, when k moves, ends or stays.
  ghost predicate OthersUnnoticed(s: State, s': State, k: TaskId, inputs: RequestId -> Input) {
    forall l <- s'.tasks :: l != k ==>
      && l in s.tasks && s'.tasks[l] == s.tasks[l]
      && (l in s.gate.tasks ==> l in s'.gate.tasks) && (Nested(l) in s.gate.open <==> Nested(l) in s'.gate.open)
      && Unnoticed(s, s', s.tasks[l], inputs)
  }

  lemma OthersKeep(s: State, s': State, k: TaskId, inputs: RequestId -> Input)
    requires TasksOk(s, inputs) && OthersUnnoticed(s, s', k, inputs)
    ensures forall l <- s'.tasks :: l != k ==> TaskOk(s', l, inputs)
  {
    forall l <- s'.tasks | l != k ensures TaskOk(s', l, inputs) {
      assert TaskOk(s, l, inputs);
      StillInPlace(s, s', s.tasks[l], inputs);
    }
  }

  // The state without its tasks.
  ghost predicate RestOk(s: State, inputs: RequestId -> Input) {
    && Exclusive(s.gate)
    && Sound(s.mem, s.sends, s.starts, inputs)
    && Sound(s.disk, s.sends, s.starts, inputs)
    && LogsOk(s.sends, s.starts)
  }

  // One task ends.
  lemma OneEnds(s: State, s': State, k: TaskId, inputs: RequestId -> Input)
    requires TasksOk(s, inputs) && RestOk(s', inputs) && s'.tasks == s.tasks - {k}
    requires OthersUnnoticed(s, s', k, inputs)
    ensures Inv(s', inputs)
  {
    OthersKeep(s, s', k, inputs);
  }

  // No task moves.
  lemma NobodyMoves(s: State, s': State, inputs: RequestId -> Input)
    requires TasksOk(s, inputs) && RestOk(s', inputs) && s'.tasks == s.tasks
    requires forall l <- s.tasks ::
      && (l in s.gate.tasks ==> l in s'.gate.tasks) && (Nested(l) in s.gate.open <==> Nested(l) in s'.gate.open)
      && Unnoticed(s, s', s.tasks[l], inputs)
    ensures Inv(s', inputs)
  {
    forall l <- s.tasks ensures TaskOk(s', l, inputs) {
      assert TaskOk(s, l, inputs);
      StillInPlace(s, s', s.tasks[l], inputs);
    }
  }

  // One task moves on.
  lemma OneMoves(s: State, s': State, k: TaskId, inputs: RequestId -> Input)
    requires TasksOk(s, inputs) && RestOk(s', inputs) && k in s.tasks
    requires k in s'.tasks && s'.tasks == s.tasks[k := s.tasks[k].(pc := s'.tasks[k].pc)]
    requires OthersUnnoticed(s, s', k, inputs) && TaskOk(s', k, inputs)
    requires forall l <- s.tasks :: l != k ==> Apart(s'.tasks[k], s.tasks[l])
    ensures Inv(s', inputs)
  {
    OthersKeep(s, s', k, inputs);
    forall l, m | l in s'.tasks && m in s'.tasks && l != m ensures Apart(s'.tasks[l], s'.tasks[m]) {
      assert Apart(s.tasks[l], s.tasks[m]);
      if l == k { assert Apart(s'.tasks[k], s.tasks[m]); }
      if m == k { assert Apart(s'.tasks[k], s.tasks[l]); }
    }
  }

  // ---- parts of what goes unnoticed ----

  lemma ReadyStays(s: State, s': State, r: RequestId)
    requires ReadyToCreate(s, r) && SameEntries(s.mem, s'.mem)
    requires s'.mem.creation == s.mem.creation && (s'.disk == s.disk || s'.disk.creation == s.mem.creation)
    requires s'.starts == s.starts
    ensures ReadyToCreate(s', r)
  {
    forall q | q in s'.starts && q.App? && q != r ensures HasRecord(s'.mem, q) {
      KeptRecord(s.mem, s'.mem, q);
    }
  }

  lemma ResolvingStays(s: State, s': State, r: RequestId)
    requires Resolving(s, r) && SameEntries(s.mem, s'.mem)
    requires s'.mem.creation == s.mem.creation && s'.starts == s.starts
    ensures Resolving(s', r)
  {
    forall q | q in s'.starts && q.App? && q != r ensures HasRecord(s'.mem, q) {
      KeptRecord(s.mem, s'.mem, q);
    }
  }

  lemma LaterNotSent(sends: seq<Send>, sends': seq<Send>, r: RequestId)
    requires LaterLog(sends, sends') && NotSent(sends, r)
    ensures NotSent(sends', r)
  {
  }

  lemma LaterNothingLive(sends: seq<Send>, sends': seq<Send>)
    requires LaterLog(sends, sends')
    ensures forall t :: NothingLiveFor(sends, t) ==> NothingLiveFor(sends', t)
  {
  }

  lemma HarmlessStays(s: State, s': State, r: RequestId)
    requires MismatchIsHarmless(s, r)
    requires forall t :: Holds(s.mem, t, r) && NothingLiveFor(s.sends, t) ==> NothingLiveFor(s'.sends, t)
    requires forall t :: Holds(s'.mem, t, r) ==>
      Holds(s.mem, t, r) && s'.mem.threads[t].record.value.input == s.mem.threads[t].record.value.input
    requires forall t :: NobodyDelivers(s, t) && Holds(s.mem, t, r) ==> NobodyDelivers(s', t)
    requires forall t :: Holds(s.mem, t, r) && Holds(s'.mem, t, r) && Stuck(s, t) ==> Stuck(s', t)
    ensures MismatchIsHarmless(s', r)
  {
    forall t <- s'.mem.threads | Holds(s'.mem, t, r) ensures NothingLiveFor(s'.sends, t) {
      assert Holds(s.mem, t, r) && NothingLiveFor(s.sends, t);
    }
  }

  // A step that adds and drops no record, changes no reservation and starts no delivery.
  ghost predicate Gentle(s: State, s': State) {
    && SameRecords(s.mem, s'.mem) && LaterLog(s.sends, s'.sends) && s'.starts == s.starts
    && s'.mem.creation == s.mem.creation && (s'.disk == s.disk || s'.disk.creation == s.mem.creation)
    && (forall m <- s'.tasks :: Delivering(s'.tasks[m].pc) ==>
          m in s.tasks && Delivering(s.tasks[m].pc) && s.tasks[m].pc.t == s'.tasks[m].pc.t)
  }

  // It changes no status, and ends no call, that the task relies on.
  predicate StatusesStay(s: State, s': State, task: Task)
    requires SameRecords(s.mem, s'.mem)
  {
    && (Delivering(task.pc) && Holds(s.mem, task.pc.t, task.request) ==>
          StatusOf(s'.mem, task.pc.t) == StatusOf(s.mem, task.pc.t))
    && (PastScan(task.pc) && task.pc.t in s'.mem.threads ==> task.pc.t in s.mem.threads)
    && (task.app && BeforeScan(task.pc) && MismatchIsHarmless(s, task.request) ==>
          forall t <- s.mem.threads :: Holds(s.mem, t, task.request) && Stuck(s, t) ==> Stuck(s', t))
    && StillInFlight(s.sends, s'.sends, task.pc)
  }

  predicate StillInFlight(sends: seq<Send>, sends': seq<Send>, pc: Pc) {
    pc.InSend? && pc.i < |sends| && sends[pc.i].delivery.InFlight? ==>
      pc.i < |sends'| && sends'[pc.i].delivery.InFlight?
  }

  lemma GentleIsUnnoticed(s: State, s': State, task: Task, inputs: RequestId -> Input)
    requires PlaceOk(s, task, inputs) && Gentle(s, s') && StatusesStay(s, s', task)
    ensures Unnoticed(s, s', task, inputs)
  {
    SameHolders(s.mem, s'.mem, task.request);
    match task.pc
    case Queued | WaitingLock =>
      if ReadyToCreate(s, task.request) { ReadyStays(s, s', task.request); }
      if task.app && MismatchIsHarmless(s, task.request) {
        LaterNothingLive(s.sends, s'.sends);
        HarmlessStays(s, s', task.request);
      }
    case Creating =>
      LaterNotSent(s.sends, s'.sends, task.request);
      if Resolving(s, task.request) { ResolvingStays(s, s', task.request); }
    case _ =>
  }

  lemma GentleForOthers(s: State, s': State, k: TaskId, inputs: RequestId -> Input)
    requires TasksOk(s, inputs) && Gentle(s, s')
    requires forall l <- s'.tasks :: l != k ==>
      && l in s.tasks && s'.tasks[l] == s.tasks[l] && StatusesStay(s, s', s.tasks[l])
      && (l in s.gate.tasks ==> l in s'.gate.tasks) && (Nested(l) in s.gate.open <==> Nested(l) in s'.gate.open)
    ensures OthersUnnoticed(s, s', k, inputs)
  {
    forall l <- s'.tasks | l != k ensures Unnoticed(s, s', s.tasks[l], inputs) {
      assert TaskOk(s, l, inputs);
      GentleIsUnnoticed(s, s', s.tasks[l], inputs);
    }
  }

  // ---- new tasks ----

  // A new task that is not past its admission.
  lemma SpawnKeeps(s: State, k: TaskId, task: Task, inputs: RequestId -> Input)
    requires Inv(s, inputs) && FreshTask(s, k) && task.pc.Queued? && ScanOk(s, task, inputs)
    requires task.app ==> !Leased(s.gate) && task.request.App? && !HasAppTask(s, task.request)
    requires !task.app ==> task.input.attachments == []
    ensures Inv(s.(tasks := s.tasks[k := task], gate := if task.app then Spawn(s.gate, k) else s.gate), inputs)
  {
    var s' := s.(tasks := s.tasks[k := task], gate := if task.app then Spawn(s.gate, k) else s.gate);
    SpawnedOthers(s, s', k, inputs);
    SpawnedTask(s, s', task, inputs);
    SpawnedApart(s, k, task, inputs);
  }

  lemma SpawnedOthers(s: State, s': State, k: TaskId, inputs: RequestId -> Input)
    requires TasksOk(s, inputs) && k in s'.tasks && s' == s.(tasks := s.tasks[k := s'.tasks[k]], gate := s'.gate)
    requires s'.tasks[k].pc.Queued? && s'.gate in {s.gate, Spawn(s.gate, k)}
    ensures Gentle(s, s') && forall l <- s'.tasks :: l != k ==> TaskOk(s', l, inputs)
  {
    GentleForOthers(s, s', k, inputs);
    OthersKeep(s, s', k, inputs);
  }

  lemma SpawnedApart(s: State, k: TaskId, task: Task, inputs: RequestId -> Input)
    requires TasksOk(s, inputs) && task.pc.Queued? && (task.app ==> !HasAppTask(s, task.request))
    ensures var tasks := s.tasks[k := task];
      forall l, m :: l in tasks && m in tasks && l != m ==> Apart(tasks[l], tasks[m])
  {
    var tasks := s.tasks[k := task];
    forall l, m | l in tasks && m in tasks && l != m ensures Apart(tasks[l], tasks[m]) {
      if l != k && m != k { assert Apart(s.tasks[l], s.tasks[m]); }
    }
  }

  lemma SpawnedTask(s: State, s': State, task: Task, inputs: RequestId -> Input)
    requires Gentle(s, s') && s'.mem == s.mem && s'.sends == s.sends && task.pc.Queued? && ScanOk(s, task, inputs)
    ensures ScanOk(s', task, inputs)
  {
    GentleIsUnnoticed(s, s', task, inputs);
    StillInPlace(s, s', task, inputs);
  }

  // A reservation is made, or noted as failed, while no other one is open.
  lemma ReserveKeeps(s: State, r: RequestId, input: Input, st: CreationStatus, disk: Store, inputs: RequestId -> Input)
    requires Inv(s, inputs) && !Blocks(s.mem.creation) && r.App?
    requires disk == s.disk || exists any: CreationStatus :: disk == s.mem.(creation := Some(Creation(r, input, any)))
    ensures Inv(s.(mem := s.mem.(creation := Some(Creation(r, input, st))), disk := disk), inputs)
  {
    var mem := s.mem.(creation := Some(Creation(r, input, st)));
    var s' := s.(mem := mem, disk := disk);
    UnblockedIsSound(s.mem, Some(Creation(r, input, st)), s.sends, s.starts, inputs);
    if disk != s.disk {
      var any: CreationStatus :| disk == s.mem.(creation := Some(Creation(r, input, any)));
      UnblockedIsSound(s.mem, Some(Creation(r, input, any)), s.sends, s.starts, inputs);
    }
    forall l <- s.tasks ensures Unnoticed(s, s', s.tasks[l], inputs) {
      assert TaskOk(s, l, inputs);
      SameHolders(s.mem, mem, s.tasks[l].request);
      if s.tasks[l].app && BeforeScan(s.tasks[l].pc) && MismatchIsHarmless(s, s.tasks[l].request) {
        HarmlessStays(s, s', s.tasks[l].request);
      }
    }
    NobodyMoves(s, s', inputs);
  }

  // Without an open creation every started request has its record, so any reservation fits.
  lemma UnblockedIsSound(s: Store, creation: Option<Creation>, sends: seq<Send>, starts: seq<RequestId>,
                         inputs: RequestId -> Input)
    requires Sound(s, sends, starts, inputs) && !Blocks(s.creation)
    requires creation.Some? ==> creation.value.request.App?
    ensures Sound(s.(creation := creation), sends, starts, inputs)
  {
    SameRecordsSound(s, s.(creation := creation), sends, starts, inputs);
  }

  lemma EverythingRecorded(s: State, r: RequestId, inputs: RequestId -> Input)
    requires Sound(s.mem, s.sends, s.starts, inputs) && !Blocks(s.mem.creation)
    ensures OthersRecorded(s, r)
    ensures r.App? && !HasRecord(s.mem, r) ==> r !in s.starts
  {
    forall q | q in s.starts && q.App? ensures HasRecord(s.mem, q) {
      assert Claimed(s.mem, q);
    }
  }

  lemma SubmitKeeps(s: State, h: nat, k: TaskId, r: RequestId, input: Input, save: Save, inputs: RequestId -> Input)
    requires var e := Submit(h, k, r, input, save); Inv(s, inputs) && Enabled(s, e) && Assumed(s, e, inputs)
    ensures Inv(SubmitStep(s, k, r, input, save), inputs)
  {
    assert Handler(h) in s.gate.open && !Leased(s.gate);
    if HasAppTask(s, r) {
    } else if HasRecord(s.mem, r) {
      SpawnKeeps(s, k, Task(true, r, input, Queued), inputs);
    } else if !Blocks(s.mem.creation) {
      var mem := s.mem.(creation := Some(Creation(r, input, CreationPreparing)));
      var disk := Write(s.disk, mem, save);
      if save == Saved {
        ReserveKeeps(s, r, input, CreationPreparing, disk, inputs);
        ReservedIsReady(s, r, input, inputs);
        SpawnKeeps(s.(mem := mem, disk := disk), k, Task(true, r, input, Queued), inputs);
      } else {
        ReserveKeeps(s, r, input, CreationFailed, disk, inputs);
      }
    }
  }

  lemma ReservedIsReady(s: State, r: RequestId, input: Input, inputs: RequestId -> Input)
    requires Inv(s, inputs) && r.App? && !HasRecord(s.mem, r) && !Blocks(s.mem.creation)
    ensures var mem := s.mem.(creation := Some(Creation(r, input, CreationPreparing)));
      !HasRecord(mem, r) && ReadyToCreate(s.(mem := mem, disk := mem), r)
  {
    var mem := s.mem.(creation := Some(Creation(r, input, CreationPreparing)));
    EverythingRecorded(s, r, inputs);
    SameHolders(s.mem, mem, r);
    forall q | q in s.starts && q.App? && q != r ensures HasRecord(mem, q) {
      SameHolders(s.mem, mem, q);
    }
  }

  // ---- tasks that end ----

  function Freed(g: Gate, k: TaskId): Gate {
    if Nested(k) in g.open then Release(g, Nested(k)) else g
  }

  // The end of a task, with a last gentle change of the stores on its behalf.
  lemma EndKeeps(s: State, k: TaskId, mem: Store, disk: Store, sends: seq<Send>, inputs: RequestId -> Input)
    requires Inv(s, inputs) && k in s.tasks
    requires Sound(mem, sends, s.starts, inputs) && Sound(disk, sends, s.starts, inputs) && LogsOk(sends, s.starts)
    requires SameRecords(s.mem, mem) && LaterLog(s.sends, sends) && mem.creation == s.mem.creation
    requires disk == s.disk || disk.creation == s.mem.creation
    requires var s1 := s.(mem := mem, sends := sends); forall l <- s.tasks :: l != k ==> StatusesStay(s, s1, s.tasks[l])
    ensures Inv(Ended(State(Freed(s.gate, k), mem, disk, s.tasks, s.starts, sends), k), inputs)
  {
    var s' := Ended(State(Freed(s.gate, k), mem, disk, s.tasks, s.starts, sends), k);
    GentleForOthers(s, s', k, inputs);
    OneEnds(s, s', k, inputs);
  }

  // A task that settles the record it works on, or gives up before sending.
  lemma SettleKeeps(s: State, k: TaskId, t: ThreadId, st: Status, disk: Store, save: Save, sends: seq<Send>,
                    inputs: RequestId -> Input)
    requires Inv(s, inputs) && k in s.tasks && Nested(k) !in s.gate.open && Holds(s.mem, t, s.tasks[k].request)
    requires forall l <- s.tasks :: l != k && Delivering(s.tasks[l].pc) ==> s.tasks[l].pc.t != t
    requires Sound(s.mem, sends, s.starts, inputs) && Sound(disk, sends, s.starts, inputs)
    requires LogsOk(sends, s.starts) && LaterLog(s.sends, sends)
    requires Committed(st) || NothingLiveFor(sends, t)
    requires disk == s.disk || disk.creation == s.mem.creation
    requires !s.tasks[k].app ==> !MismatchIsHarmless(s, s.tasks[k].request)
    requires forall l <- s.tasks :: l != k ==> StillInFlight(s.sends, sends, s.tasks[l].pc)
    ensures Inv(Settle(s.(disk := disk, sends := sends), k, t, st, save), inputs)
  {
    var mem := WithStatus(s.mem, t, st);
    StatusChange(s.mem, t, st, sends, s.starts, inputs);
    SettledForOthers(s, k, t, st, sends, inputs);
    EndKeeps(s, k, mem, Write(disk, mem, save), sends, inputs);
  }

  lemma SettledForOthers(s: State, k: TaskId, t: ThreadId, st: Status, sends: seq<Send>, inputs: RequestId -> Input)
    requires TasksOk(s, inputs) && k in s.tasks && Holds(s.mem, t, s.tasks[k].request)
    requires forall l <- s.tasks :: l != k && Delivering(s.tasks[l].pc) ==> s.tasks[l].pc.t != t
    requires !s.tasks[k].app ==> !MismatchIsHarmless(s, s.tasks[k].request)
    requires LaterLog(s.sends, sends)
    requires forall l <- s.tasks :: l != k ==> StillInFlight(s.sends, sends, s.tasks[l].pc)
    ensures var mem := WithStatus(s.mem, t, st);
      && SameRecords(s.mem, mem)
      && forall l <- s.tasks :: l != k ==> StatusesStay(s, s.(mem := mem, sends := sends), s.tasks[l])
  {
    forall l <- s.tasks | l != k ensures
      var mem := WithStatus(s.mem, t, st); StatusesStay(s, s.(mem := mem, sends := sends), s.tasks[l])
    {
      assert Apart(s.tasks[k], s.tasks[l]);
    }
  }

  // A task whose entry has been dropped ends without a further effect on any record.
  lemma DetachedKeeps(s: State, k: TaskId, save: Save, inputs: RequestId -> Input)
    requires Inv(s, inputs) && k in s.tasks && PastScan(s.tasks[k].pc)
    ensures Inv(DetachedEnd(s, k, save), inputs)
  {
    assert TaskOk(s, k, inputs);
    EndKeeps(s, k, s.mem, Write(s.disk, s.mem, save), s.sends, inputs);
  }

  lemma CancelIdleKeeps(s: State, k: TaskId, inputs: RequestId -> Input)
    requires Inv(s, inputs) && Enabled(s, CancelIdle(k))
    ensures Inv(Step(s, CancelIdle(k)), inputs)
  {
    assert TaskOk(s, k, inputs);
    EndKeeps(s, k, s.mem, s.disk, s.sends, inputs);
  }

  // A Telegram handler that raises changes nothing but, perhaps, the disk.
  lemma TelegramRaisedKeeps(s: State, k: TaskId, save: Save, inputs: RequestId -> Input)
    requires Inv(s, inputs) && k in s.tasks && !s.tasks[k].app
    ensures Inv(Raised(s.(gate := Freed(s.gate, k)), k, save), inputs)
  {
    var disk := if HasRecord(s.mem, s.tasks[k].request) then Write(s.disk, s.mem, save) else s.disk;
    EndKeeps(s, k, s.mem, disk, s.sends, inputs);
  }

  // The creation failed before there was a record: the app handler marks its reservation,
  // which no other task relies on, as unknown.
  lemma RaisedKeeps(s: State, k: TaskId, save: Save, inputs: RequestId -> Input)
    requires Inv(s, inputs) && k in s.tasks && s.tasks[k].app && s.tasks[k].pc.Creating?
    ensures Inv(Raised(s.(gate := Freed(s.gate, k)), k, save), inputs)
  {
    var r := s.tasks[k].request;
    assert TaskOk(s, k, inputs);
    var mem := Unclear(s.mem);
    var s' := Ended(State(Freed(s.gate, k), mem, Write(s.disk, mem, save), s.tasks, s.starts, s.sends), k);
    SameRecordsSound(s.mem, mem, s.sends, s.starts, inputs);
    forall l <- s.tasks | l != k ensures Unnoticed(s, s', s.tasks[l], inputs) {
      assert Apart(s.tasks[k], s.tasks[l]) && TaskOk(s, l, inputs);
      UnclearIsUnnoticed(s, s', r, s.tasks[l], inputs);
    }
    OneEnds(s, s', k, inputs);
  }

  function Unclear(s: Store): Store
    requires s.creation.Some?
  {
    s.(creation := Some(s.creation.value.(status := CreationUnknown)))
  }

  lemma UnclearIsUnnoticed(s: State, s': State, r: RequestId, task: Task, inputs: RequestId -> Input)
    requires Resolving(s, r) && r.App? && !HasRecord(s.mem, r) && PlaceOk(s, task, inputs)
    requires task.app ==> task.request != r
    requires !task.pc.Creating?
    requires s'.mem == Unclear(s.mem) && s'.sends == s.sends && s'.starts == s.starts
    requires forall l <- s'.tasks :: l in s.tasks && s'.tasks[l] == s.tasks[l]
    ensures Unnoticed(s, s', task, inputs)
  {
    SameHolders(s.mem, s'.mem, task.request);
    if task.app && BeforeScan(task.pc) && MismatchIsHarmless(s, task.request) {
      HarmlessStays(s, s', task.request);
    }
  }

  // A retry with other input, which nobody could be sending for, marks the record as failed.
  lemma MismatchKeeps(s: State, k: TaskId, save: Save, inputs: RequestId -> Input)
    requires Inv(s, inputs) && k in s.tasks && s.tasks[k].app && s.tasks[k].pc.WaitingLock?
    requires HasRecord(s.mem, s.tasks[k].request) && MismatchIsHarmless(s, s.tasks[k].request)
    ensures Inv(Raised(s.(gate := Freed(s.gate, k)), k, save), inputs)
  {
    var t := RecordOf(s.mem, s.tasks[k].request);
    StatusChange(s.mem, t, Failed, s.sends, s.starts, inputs);
    MismatchForOthers(s, k, t, inputs);
    var mem := WithStatus(s.mem, t, Failed);
    EndKeeps(s, k, mem, Write(s.disk, mem, save), s.sends, inputs);
  }

  lemma MismatchForOthers(s: State, k: TaskId, t: ThreadId, inputs: RequestId -> Input)
    requires TasksOk(s, inputs) && k in s.tasks && s.tasks[k].app && Holds(s.mem, t, s.tasks[k].request)
    requires NobodyDelivers(s, t)
    ensures var mem := WithStatus(s.mem, t, Failed);
      && SameRecords(s.mem, mem)
      && forall l <- s.tasks :: l != k ==> StatusesStay(s, s.(mem := mem), s.tasks[l])
  {
    forall l <- s.tasks | l != k ensures StatusesStay(s, s.(mem := WithStatus(s.mem, t, Failed)), s.tasks[l]) {
      assert Apart(s.tasks[k], s.tasks[l]);
    }
  }

  // ---- admission, scan and creation ----

  lemma AdmittedKeeps(s: State, k: TaskId, g: Gate, inputs: RequestId -> Input)
    requires Inv(s, inputs) && k in s.tasks && s.tasks[k].pc.Queued? && Admit(s.gate, Nested(k)) == Some(g)
    ensures Inv(At(s.(gate := g), k, WaitingLock), inputs)
  {
    var s' := At(s.(gate := g), k, WaitingLock);
    GentleForOthers(s, s', k, inputs);
    AdmittedTask(s, k, g, inputs);
    AdmitCounts(s.gate, Nested(k));
    OneMoves(s, s', k, inputs);
  }

  lemma AdmitCounts(g: Gate, a: Admission)
    requires Exclusive(g) && Admit(g, a).Some? && a !in g.open
    ensures Exclusive(Admit(g, a).value)
  {
  }

  lemma AdmittedTask(s: State, k: TaskId, g: Gate, inputs: RequestId -> Input)
    requires Inv(s, inputs) && k in s.tasks && s.tasks[k].pc.Queued? && Admit(s.gate, Nested(k)) == Some(g)
    ensures TaskOk(At(s.(gate := g), k, WaitingLock), k, inputs) && Nested(k) !in s.gate.open
  {
    assert TaskOk(s, k, inputs);
    SpawnedTask(s, At(s.(gate := g), k, WaitingLock), s.tasks[k], inputs);
  }

  // The nested admission of an app task is never refused.
  lemma BeginKeeps(s: State, k: TaskId, save: Save, inputs: RequestId -> Input)
    requires Inv(s, inputs) && Enabled(s, Begin(k, save))
    ensures Inv(BeginStep(s, k, save), inputs)
    ensures s.tasks[k].app ==> Admit(s.gate, Nested(k)).Some?
  {
    assert GateOk(s.gate, k, s.tasks[k]) by { assert TaskOk(s, k, inputs); }
    match Admit(s.gate, Nested(k))
    case None => TelegramRaisedKeeps(s, k, save, inputs);
    case Some(g) => AdmittedKeeps(s, k, g, inputs);
  }

  lemma ClearCreationIsSound(s: Store, r: RequestId, sends: seq<Send>, starts: seq<RequestId>,
                             inputs: RequestId -> Input)
    requires Sound(s, sends, starts, inputs) && HasRecord(s, r)
    ensures Sound(ClearCreation(s, r), sends, starts, inputs)
  {
    var s' := ClearCreation(s, r);
    forall q | q in starts && q.App? ensures Claimed(s', q) {
      assert Claimed(s, q);
      SameHolders(s, s', q);
      if Frozen(s) { SameHolders(s, s', s.creation.value.request); }
    }
    forall i | 0 <= i < |sends| ensures Guards(s', sends[i]) {
      assert Guards(s, sends[i]);
      SameHolders(s, s', sends[i].request);
    }
  }

  // Ending its own reservation, the app handler takes no other task's away.
  lemma ClearedForOthers(s: State, s': State, k: TaskId, inputs: RequestId -> Input)
    requires TasksOk(s, inputs) && k in s.tasks
    requires s'.mem == (if s.tasks[k].app then ClearCreation(s.mem, s.tasks[k].request) else s.mem)
    requires s'.disk == s.disk && s'.sends == s.sends && s'.starts == s.starts && s'.tasks.Keys == s.tasks.Keys
    requires forall l <- s'.tasks :: l != k ==> s'.tasks[l] == s.tasks[l] && !Delivering(s'.tasks[k].pc)
    requires forall l <- s'.tasks :: l != k ==>
      (l in s.gate.tasks ==> l in s'.gate.tasks) && (Nested(l) in s.gate.open <==> Nested(l) in s'.gate.open)
    ensures OthersUnnoticed(s, s', k, inputs)
  {
    forall l <- s'.tasks | l != k ensures Unnoticed(s, s', s.tasks[l], inputs) {
      assert TaskOk(s, l, inputs) && Apart(s.tasks[k], s.tasks[l]);
      if s.tasks[k].app {
        ClearedIsUnnoticed(s, s', s.tasks[k].request, s.tasks[l], inputs);
      } else {
        GentleIsUnnoticed(s, s', s.tasks[l], inputs);
      }
    }
  }

  lemma ClearedIsUnnoticed(s: State, s': State, q: RequestId, task: Task, inputs: RequestId -> Input)
    requires PlaceOk(s, task, inputs) && s'.mem == ClearCreation(s.mem, q) && (task.app ==> task.request != q)
    requires s'.disk == s.disk && s'.sends == s.sends && s'.starts == s.starts
    requires forall m <- s'.tasks :: Delivering(s'.tasks[m].pc) ==> m in s.tasks && s'.tasks[m] == s.tasks[m]
    ensures Unnoticed(s, s', task, inputs)
  {
    var r := task.request;
    SameHolders(s.mem, s'.mem, r);
    match task.pc
    case Queued | WaitingLock =>
      if task.app && ReadyToCreate(s, r) { ReadyStays(s, s', r); }
      if task.app && MismatchIsHarmless(s, r) { HarmlessStays(s, s', r); }
    case Creating =>
      if task.app { ResolvingStays(s, s', r); }
    case _ =>
  }

  // The session is there: the task goes on to send.
  lemma ObtainedKeeps(s: State, k: TaskId, t: ThreadId, inputs: RequestId -> Input)
    requires Inv(s, inputs) && k in s.tasks && s.tasks[k].pc.WaitingLock?
    requires Holds(s.mem, t, s.tasks[k].request) && s.mem.threads[t].record.value.input == s.tasks[k].input
    ensures Inv(Obtained(s, k, t), inputs)
  {
    var s' := Obtained(s, k, t);
    assert HasRecord(s.mem, s.tasks[k].request) && TaskOk(s, k, inputs);
    ClearCreationIsSound(s.mem, s.tasks[k].request, s.sends, s.starts, inputs);
    ClearedForOthers(s, s', k, inputs);
    assert Holds(s'.mem, t, s.tasks[k].request);
    OneMoves(s, s', k, inputs);
  }

  lemma AcquireKeeps(s: State, k: TaskId, save: Save, inputs: RequestId -> Input)
    requires Inv(s, inputs) && Enabled(s, Acquire(k, save))
    ensures Inv(AcquireStep(s, k, save), inputs)
  {
    assert TaskOk(s, k, inputs);
    var r := s.tasks[k].request;
    if !HasRecord(s.mem, r) {
      StartKeeps(s, k, inputs);
    } else {
      var t := RecordOf(s.mem, r);
      assert RecordOk(s.mem.threads[t].record.value, s.starts, inputs);
      if s.mem.threads[t].record.value.input == s.tasks[k].input {
        ObtainedKeeps(s, k, t, inputs);
      } else if s.tasks[k].app {
        MismatchKeeps(s, k, save, inputs);
      } else {
        TelegramRaisedKeeps(s, k, save, inputs);
      }
    }
  }

  // More started requests: the records are as good, and the claims if the new one is claimed.
  lemma StartIsSound(s: Store, r: RequestId, sends: seq<Send>, starts: seq<RequestId>, inputs: RequestId -> Input)
    requires Sound(s, sends, starts, inputs) && (r.App? ==> Claimed(s, r))
    ensures Sound(s, sends, starts + [r], inputs)
  {
    forall t <- s.threads | s.threads[t].record.Some?
      ensures RecordOk(s.threads[t].record.value, starts + [r], inputs)
    {
      assert RecordOk(s.threads[t].record.value, starts, inputs);
    }
  }

  // A store that reserves r claims it.
  lemma ReservedIsClaimed(s: Store, r: RequestId)
    requires Reserved(s, r)
    ensures Claimed(s, r)
  {
  }

  // start_thread is called for a request that never reached it before.
  lemma StartKeeps(s: State, k: TaskId, inputs: RequestId -> Input)
    requires Inv(s, inputs) && k in s.tasks && s.tasks[k].pc.WaitingLock? && LockFree(s)
    requires !HasRecord(s.mem, s.tasks[k].request)
    ensures Inv(At(s.(starts := s.starts + [s.tasks[k].request]), k, Creating), inputs)
  {
    assert TaskOk(s, k, inputs);
    var r := s.tasks[k].request;
    var s' := At(s.(starts := s.starts + [r]), k, Creating);
    if r.App? {
      ReservedIsClaimed(s.mem, r);
      ReservedIsClaimed(s.disk, r);
    }
    StartIsSound(s.mem, r, s.sends, s.starts, inputs);
    StartIsSound(s.disk, r, s.sends, s.starts, inputs);
    StartedTask(s, k, inputs);
    StartedOthers(s, k, inputs);
    StartedOnce(s, r);
    OneMoves(s, s', k, inputs);
  }

  lemma StartedOnce(s: State, r: RequestId)
    requires LogsOk(s.sends, s.starts) && (r.App? ==> r !in s.starts)
    ensures LogsOk(s.sends, s.starts + [r])
  {
    var starts := s.starts + [r];
    forall i, j | 0 <= i < j < |starts| && starts[i].App? ensures starts[i] != starts[j] {
      assert starts[i] == s.starts[i];
    }
  }

  lemma StartedTask(s: State, k: TaskId, inputs: RequestId -> Input)
    requires Inv(s, inputs) && k in s.tasks && s.tasks[k].pc.WaitingLock?
    requires !HasRecord(s.mem, s.tasks[k].request)
    ensures TaskOk(At(s.(starts := s.starts + [s.tasks[k].request]), k, Creating), k, inputs)
    ensures s.tasks[k].request.App? ==> s.tasks[k].request !in s.starts
  {
    assert TaskOk(s, k, inputs);
    var r := s.tasks[k].request;
    forall i | 0 <= i < |s.sends| && s.sends[i].request == r ensures !Live(s.sends[i]) {
      assert Guards(s.mem, s.sends[i]);
      assert Holds(s.mem, s.sends[i].thread, r) ==> HasRecord(s.mem, r);
    }
  }

  lemma StartedOthers(s: State, k: TaskId, inputs: RequestId -> Input)
    requires Inv(s, inputs) && k in s.tasks && s.tasks[k].pc.WaitingLock? && LockFree(s)
    requires !HasRecord(s.mem, s.tasks[k].request)
    ensures OthersUnnoticed(s, At(s.(starts := s.starts + [s.tasks[k].request]), k, Creating), k, inputs)
  {
    var s' := At(s.(starts := s.starts + [s.tasks[k].request]), k, Creating);
    assert TaskOk(s, k, inputs);
    forall l <- s'.tasks | l != k ensures Unnoticed(s, s', s.tasks[l], inputs) {
      assert TaskOk(s, l, inputs) && Apart(s.tasks[k], s.tasks[l]);
      if s.tasks[l].app && BeforeScan(s.tasks[l].pc) && MismatchIsHarmless(s, s.tasks[l].request) {
        HarmlessStays(s, s', s.tasks[l].request);
      }
    }
  }

  function Inserted(s: Store, t: ThreadId, record: Record): Store {
    s.(threads := s.threads[t := Thread(false, Some(record))])
  }

  lemma InsertIsSound(s: Store, t: ThreadId, record: Record, sends: seq<Send>, starts: seq<RequestId>,
                      inputs: RequestId -> Input)
    requires Sound(s, sends, starts, inputs) && !HasRecord(s, record.request) && t !in s.threads
    requires RecordOk(record, starts, inputs) && record.receipt.None?
    requires NothingLiveFor(sends, t) && NotSent(sends, record.request)
    requires Frozen(s) && s.creation.value.request == record.request ==>
      forall q :: q in starts && q.App? && q != record.request ==> HasRecord(s, q)
    ensures SameEntries(s, Inserted(s, t, record)) && Holds(Inserted(s, t, record), t, record.request)
    ensures Sound(Inserted(s, t, record), sends, starts, inputs)
  {
    var s' := Inserted(s, t, record);
    assert Holds(s', t, record.request);
    forall u | u in s.threads && s.threads[u].record.Some?
      ensures s.threads[u].record.value.request != record.request
    {
      assert !Holds(s, u, record.request);
    }
    forall q | q in starts && q.App? ensures Claimed(s', q) {
      assert Claimed(s, q);
      RecordsAfterInsert(s, t, record, q);
      if Frozen(s) { RecordsAfterInsert(s, t, record, s.creation.value.request); }
    }
    forall i | 0 <= i < |sends| ensures Guards(s', sends[i]) {
      assert Guards(s, sends[i]);
      RecordsAfterInsert(s, t, record, sends[i].request);
    }
  }

  lemma RecordsAfterInsert(s: Store, t: ThreadId, record: Record, q: RequestId)
    requires t !in s.threads
    ensures HasRecord(Inserted(s, t, record), q) <==> HasRecord(s, q) || q == record.request
    ensures q != record.request ==> forall u :: Holds(Inserted(s, t, record), u, q) <==> Holds(s, u, q)
  {
    var s' := Inserted(s, t, record);
    assert forall u :: Holds(s', u, q) <==> Holds(s, u, q) || (u == t && q == record.request);
    if HasRecord(s, q) { KeptRecord(s, s', q); }
    if HasRecord(s', q) && q != record.request {
      var u :| u in s'.threads && Holds(s', u, q);
      assert Holds(s, u, q);
    }
    if q == record.request { assert Holds(s', t, q); }
  }

  // An entry that nothing refers to.
  predicate NewEntry(s: State, t: ThreadId) {
    && t !in s.mem.threads && NothingLiveFor(s.sends, t)
    && forall k <- s.tasks :: PastScan(s.tasks[k].pc) ==> s.tasks[k].pc.t != t
  }

  // The other tasks work on other entries, and none of them creates one or waits to.
  lemma OthersAfterInsert(s: State, s': State, k: TaskId, t: ThreadId, inputs: RequestId -> Input)
    requires Inv(s, inputs) && k in s.tasks && s.tasks[k].pc.Creating? && NewEntry(s, t)
    requires s'.mem.threads == Inserted(s.mem, t, NewRecord(s.tasks[k])).threads
             || (s.tasks[k].app && s'.mem.threads
                   == WithStatus(Inserted(s.mem, t, NewRecord(s.tasks[k])), t, Failed).threads)
    requires s'.mem.creation == s.mem.creation || s.tasks[k].app
    requires s'.disk == s.disk || s'.disk.creation == s.mem.creation || s.tasks[k].app
    requires s'.sends == s.sends && s'.starts == s.starts
    requires forall l <- s'.tasks :: l != k ==> l in s.tasks && s'.tasks[l] == s.tasks[l]
    requires k in s'.tasks ==> !Delivering(s'.tasks[k].pc)
    requires forall l <- s'.tasks :: l != k ==>
      (l in s.gate.tasks ==> l in s'.gate.tasks) && (Nested(l) in s.gate.open <==> Nested(l) in s'.gate.open)
    ensures OthersUnnoticed(s, s', k, inputs)
  {
    var r := s.tasks[k].request;
    assert TaskOk(s, k, inputs);
    assert SameEntries(s.mem, s'.mem);
    forall l <- s'.tasks | l != k ensures Unnoticed(s, s', s.tasks[l], inputs) {
      assert TaskOk(s, l, inputs) && Apart(s.tasks[k], s.tasks[l]);
      if BeforeScan(s.tasks[l].pc) {
        WaitingAfterInsert(s, s', k, t, s.tasks[l].request);
      } else {
        assert !s.tasks[l].pc.Creating? && s.tasks[l].pc.t != t;
      }
    }
  }

  lemma WaitingAfterInsert(s: State, s': State, k: TaskId, t: ThreadId, q: RequestId)
    requires k in s.tasks && NewEntry(s, t) && SameEntries(s.mem, s'.mem)
    requires forall u <- s'.mem.threads :: u != t ==> u in s.mem.threads && s'.mem.threads[u] == s.mem.threads[u]
    requires ReadyToCreate(s, q) ==>
      s'.mem.creation == s.mem.creation && (s'.disk == s.disk || s'.disk.creation == s.mem.creation)
    requires s'.sends == s.sends && s'.starts == s.starts
    requires Holds(s'.mem, t, q) ==> !HasRecord(s.mem, q)
    requires forall l <- s'.tasks :: Delivering(s'.tasks[l].pc) ==> l in s.tasks && s'.tasks[l] == s.tasks[l]
    ensures ReadyToCreate(s, q) ==> ReadyToCreate(s', q)
    ensures HasRecord(s.mem, q) && MismatchIsHarmless(s, q) ==> MismatchIsHarmless(s', q)
  {
    if ReadyToCreate(s, q) { ReadyStays(s, s', q); }
    if HasRecord(s.mem, q) && MismatchIsHarmless(s, q) { HarmlessStays(s, s', q); }
  }

  lemma CreatedKeeps(s: State, k: TaskId, t: ThreadId, inputs: RequestId -> Input)
    requires Inv(s, inputs) && k in s.tasks && s.tasks[k].pc.Creating? && NewEntry(s, t)
    ensures Inv(CreateStep(s, k, Created(t), Saved, Saved), inputs)
  {
    var mem := Inserted(s.mem, t, NewRecord(s.tasks[k]));
    var s' := CreateStep(s, k, Created(t), Saved, Saved);
    assert TaskOk(s, k, inputs);
    InsertIsSound(s.mem, t, NewRecord(s.tasks[k]), s.sends, s.starts, inputs);
    ClearCreationIsSound(mem, s.tasks[k].request, s.sends, s.starts, inputs);
    OthersAfterInsert(s, s', k, t, inputs);
    assert Holds(s'.mem, t, s.tasks[k].request);
    OneMoves(s, s', k, inputs);
  }

  // The new record of a Telegram handler could not be saved: the handler ends.
  lemma UnsavedTelegramKeeps(s: State, k: TaskId, t: ThreadId, save: Save, save2: Save, inputs: RequestId -> Input)
    requires Inv(s, inputs) && k in s.tasks && s.tasks[k].pc.Creating? && !s.tasks[k].app && NewEntry(s, t)
    requires save != Saved
    ensures Inv(CreateStep(s, k, Created(t), save, save2), inputs)
  {
    var mem := Inserted(s.mem, t, NewRecord(s.tasks[k]));
    assert TaskOk(s, k, inputs);
    InsertIsSound(s.mem, t, NewRecord(s.tasks[k]), s.sends, s.starts, inputs);
    assert HasRecord(mem, s.tasks[k].request) by { assert Holds(mem, t, s.tasks[k].request); }
    var s' := CreateStep(s, k, Created(t), save, save2);
    assert s'.mem == mem && s'.tasks == s.tasks - {k} && s'.gate == Finish(Freed(s.gate, k), k);
    OthersAfterInsert(s, s', k, t, inputs);
    OneEnds(s, s', k, inputs);
  }

  // The new record could not be saved: the app handler marks it failed and ends, and its
  // reservation stays beside the record.
  lemma UnsavedCreateKeeps(s: State, k: TaskId, t: ThreadId, save: Save, save2: Save, inputs: RequestId -> Input)
    requires Inv(s, inputs) && k in s.tasks && s.tasks[k].pc.Creating? && s.tasks[k].app && NewEntry(s, t)
    requires save != Saved
    ensures Inv(CreateStep(s, k, Created(t), save, save2), inputs)
  {
    var r := s.tasks[k].request;
    var mem := Inserted(s.mem, t, NewRecord(s.tasks[k]));
    assert TaskOk(s, k, inputs);
    InsertIsSound(s.mem, t, NewRecord(s.tasks[k]), s.sends, s.starts, inputs);
    assert Holds(mem, t, r);
    assert RecordOf(mem, r) == t;
    StatusChange(mem, t, Failed, s.sends, s.starts, inputs);
    var failed := WithStatus(mem, t, Failed);
    var s' := CreateStep(s, k, Created(t), save, save2);
    assert s'.mem == failed && s'.tasks == s.tasks - {k} && s'.gate == Finish(Freed(s.gate, k), k);
    OthersAfterInsert(s, s', k, t, inputs);
    OneEnds(s, s', k, inputs);
  }

  // ---- delivery ----

  // The task advances within the delivery of its record.
  predicate Advance(s: State, k: TaskId, st: Status, pc: Pc, sends: seq<Send>) {
    && k in s.tasks && Nested(k) !in s.gate.open && PastScan(s.tasks[k].pc)
    && Delivering(pc) && Holds(s.mem, pc.t, s.tasks[k].request)
    && s.mem.threads[pc.t].record.value.input == s.tasks[k].input
    && (forall l <- s.tasks :: l != k && Delivering(s.tasks[l].pc) ==> s.tasks[l].pc.t != pc.t)
    && (!s.tasks[k].app ==> !MismatchIsHarmless(s, s.tasks[k].request))
    && |s.sends| <= |sends| && sends[..|s.sends|] == s.sends
    && (pc.BeforeSend? ==> st == Preparing)
    && (pc.InSend? ==> st == Sending && pc.i < |sends| && sends[pc.i] == NewSend(s.tasks[k].request, pc.t)
                         && OnlyLiveFor(sends, pc.t, pc.i))
    && (forall i :: |s.sends| <= i < |sends| ==> SameCall(sends[i], NewSend(s.tasks[k].request, pc.t)))
  }

  lemma AdvanceOthers(s: State, k: TaskId, st: Status, pc: Pc, sends: seq<Send>, inputs: RequestId -> Input)
    requires Inv(s, inputs) && Advance(s, k, st, pc, sends)
    ensures var mem := WithStatus(s.mem, pc.t, st);
      OthersUnnoticed(s, At(s.(mem := mem, disk := mem, sends := sends), k, pc), k, inputs)
  {
    var mem := WithStatus(s.mem, pc.t, st);
    var s' := At(s.(mem := mem, disk := mem, sends := sends), k, pc);
    assert SameRecords(s.mem, mem);
    forall l <- s'.tasks | l != k ensures Unnoticed(s, s', s.tasks[l], inputs) {
      assert TaskOk(s, l, inputs) && Apart(s.tasks[k], s.tasks[l]);
      AdvanceUnnoticed(s, k, st, pc, sends, s.tasks[l], inputs);
    }
  }

  lemma AdvanceUnnoticed(s: State, k: TaskId, st: Status, pc: Pc, sends: seq<Send>, task: Task,
                         inputs: RequestId -> Input)
    requires Advance(s, k, st, pc, sends) && PlaceOk(s, task, inputs)
    requires Delivering(task.pc) ==> task.pc.t != pc.t
    requires task.app && s.tasks[k].app ==> task.request != s.tasks[k].request
    ensures var mem := WithStatus(s.mem, pc.t, st);
      Unnoticed(s, At(s.(mem := mem, disk := mem, sends := sends), k, pc), task, inputs)
  {
    var mem := WithStatus(s.mem, pc.t, st);
    var s' := At(s.(mem := mem, disk := mem, sends := sends), k, pc);
    var r := task.request;
    SameHolders(s.mem, mem, r);
    LongerLog(s.sends, sends, pc.t);
    match task.pc
    case Queued | WaitingLock =>
      if ReadyToCreate(s, r) { ReadyStays(s, s', r); }
      if task.app && MismatchIsHarmless(s, r) { AdvanceIsHarmless(s, k, st, pc, sends, r); }
    case Creating =>
      assert r != s.tasks[k].request by { assert HasRecord(s.mem, s.tasks[k].request); }
      assert forall i :: 0 <= i < |s.sends| ==> sends[i] == s.sends[i];
      if Resolving(s, r) { ResolvingStays(s, s', r); }
    case _ =>
  }

  lemma AdvanceIsHarmless(s: State, k: TaskId, st: Status, pc: Pc, sends: seq<Send>, r: RequestId)
    requires Advance(s, k, st, pc, sends) && MismatchIsHarmless(s, r)
    requires r != s.tasks[k].request || !s.tasks[k].app
    ensures var mem := WithStatus(s.mem, pc.t, st);
      MismatchIsHarmless(At(s.(mem := mem, disk := mem, sends := sends), k, pc), r)
  {
    var mem := WithStatus(s.mem, pc.t, st);
    SameHolders(s.mem, mem, r);
    LongerLog(s.sends, sends, pc.t);
    HarmlessStays(s, At(s.(mem := mem, disk := mem, sends := sends), k, pc), r);
  }

  lemma LongerLog(sends: seq<Send>, longer: seq<Send>, t: ThreadId)
    requires |sends| <= |longer| && longer[..|sends|] == sends
    requires forall j :: |sends| <= j < |longer| ==> longer[j].thread == t
    ensures forall u :: u != t && NothingLiveFor(sends, u) ==> NothingLiveFor(longer, u)
    ensures forall u, i :: u != t ==> SendUnnoticed(sends, longer, u, i)
    ensures forall u, record :: u != t && NoWord(sends, u, record) ==> NoWord(longer, u, record)
  {
    assert forall j :: 0 <= j < |sends| ==> longer[j] == longer[..|sends|][j];
  }

  lemma AdvanceKeeps(s: State, k: TaskId, st: Status, pc: Pc, sends: seq<Send>, inputs: RequestId -> Input)
    requires Inv(s, inputs) && Advance(s, k, st, pc, sends) && LogsOk(sends, s.starts)
    requires Sound(WithStatus(s.mem, pc.t, st), sends, s.starts, inputs)
    ensures var mem := WithStatus(s.mem, pc.t, st); Inv(At(s.(mem := mem, disk := mem, sends := sends), k, pc), inputs)
  {
    var mem := WithStatus(s.mem, pc.t, st);
    assert TaskOk(s, k, inputs);
    AdvanceOthers(s, k, st, pc, sends, inputs);
    OneMoves(s, At(s.(mem := mem, disk := mem, sends := sends), k, pc), k, inputs);
  }

  lemma EnterSendRefusedKeeps(s: State, k: TaskId, save: Save, inputs: RequestId -> Input)
    requires Inv(s, inputs) && Enabled(s, EnterSend(k, save)) && !Detached(s, k)
    requires StatusOf(s.mem, s.tasks[k].pc.t) !in {Pending, Failed}
    ensures Inv(EnterSendStep(s, k, save), inputs)
  {
    assert TaskOk(s, k, inputs);
    var disk := if StatusOf(s.mem, s.tasks[k].pc.t) == Sent then Write(s.disk, s.mem, save) else s.disk;
    EndKeeps(s, k, s.mem, disk, s.sends, inputs);
  }

  // What lets a task enter the delivery of its record.
  lemma EntryIsFree(s: State, k: TaskId, inputs: RequestId -> Input)
    requires Inv(s, inputs) && k in s.tasks && s.tasks[k].pc.HasThread? && !Detached(s, k)
    requires StatusOf(s.mem, s.tasks[k].pc.t) in {Pending, Failed}
    ensures Nested(k) !in s.gate.open && s.mem.threads[s.tasks[k].pc.t].record.value.input == s.tasks[k].input
    ensures !s.tasks[k].app ==> !MismatchIsHarmless(s, s.tasks[k].request)
    ensures forall l <- s.tasks :: Delivering(s.tasks[l].pc) ==> s.tasks[l].pc.t != s.tasks[k].pc.t
  {
    assert TaskOk(s, k, inputs);
    forall l <- s.tasks | Delivering(s.tasks[l].pc) ensures s.tasks[l].pc.t != s.tasks[k].pc.t {
      assert TaskOk(s, l, inputs);
    }
  }

  lemma EnteredKeeps(s: State, k: TaskId, inputs: RequestId -> Input)
    requires Inv(s, inputs) && k in s.tasks && s.tasks[k].pc.HasThread? && !Detached(s, k)
    requires StatusOf(s.mem, s.tasks[k].pc.t) in {Pending, Failed}
    ensures Inv(EnterSendStep(s, k, Saved), inputs)
  {
    var t := s.tasks[k].pc.t;
    EntryIsFree(s, k, inputs);
    WrittenIsSound(s, t, Preparing, Saved, inputs);
    AdvanceKeeps(s, k, Preparing, BeforeSend(t), s.sends, inputs);
  }

  lemma WrittenIsSound(s: State, t: ThreadId, st: Status, save: Save, inputs: RequestId -> Input)
    requires Inv(s, inputs) && t in s.mem.threads && s.mem.threads[t].record.Some? && !Committed(StatusOf(s.mem, t))
    ensures NothingLiveFor(s.sends, t)
    ensures Sound(Write(s.disk, WithStatus(s.mem, t, st), save), s.sends, s.starts, inputs)
  {
    NoLiveSend(s.mem, t, s.sends, s.starts, inputs);
    StatusChange(s.mem, t, st, s.sends, s.starts, inputs);
  }

  lemma EntryUnsavedKeeps(s: State, k: TaskId, save: Save, inputs: RequestId -> Input)
    requires Inv(s, inputs) && k in s.tasks && s.tasks[k].pc.HasThread? && !Detached(s, k)
    requires StatusOf(s.mem, s.tasks[k].pc.t) in {Pending, Failed} && save != Saved
    ensures Inv(EnterSendStep(s, k, save), inputs)
  {
    var t := s.tasks[k].pc.t;
    EntryIsFree(s, k, inputs);
    WrittenIsSound(s, t, Preparing, save, inputs);
    var disk := Write(s.disk, WithStatus(s.mem, t, Preparing), save);
    SettleKeeps(s, k, t, Pending, disk, NotWritten, s.sends, inputs);
    assert EnterSendStep(s, k, save) == Settle(s.(disk := disk), k, t, Pending, NotWritten);
  }

  lemma EnterSendKeeps(s: State, k: TaskId, save: Save, inputs: RequestId -> Input)
    requires Inv(s, inputs) && Enabled(s, EnterSend(k, save))
    ensures Inv(EnterSendStep(s, k, save), inputs)
  {
    if Detached(s, k) {
      DetachedKeeps(s, k, save, inputs);
    } else if StatusOf(s.mem, s.tasks[k].pc.t) in {Pending, Failed} {
      if save == Saved { EnteredKeeps(s, k, inputs); } else { EntryUnsavedKeeps(s, k, save, inputs); }
    } else {
      EnterSendRefusedKeeps(s, k, save, inputs);
    }
  }

  // A task that delivers t is the only one, and no mismatched retry is harmless meanwhile.
  lemma SoleDelivery(s: State, k: TaskId, inputs: RequestId -> Input)
    requires TasksOk(s, inputs) && k in s.tasks && Delivering(s.tasks[k].pc) && !Detached(s, k)
    ensures Nested(k) !in s.gate.open && s.mem.threads[s.tasks[k].pc.t].record.value.input == s.tasks[k].input
    ensures forall l <- s.tasks :: l != k && Delivering(s.tasks[l].pc) ==> s.tasks[l].pc.t != s.tasks[k].pc.t
    ensures !MismatchIsHarmless(s, s.tasks[k].request)
  {
    assert TaskOk(s, k, inputs);
    assert !NobodyDelivers(s, s.tasks[k].pc.t);
    forall l <- s.tasks | l != k && Delivering(s.tasks[l].pc) ensures s.tasks[l].pc.t != s.tasks[k].pc.t {
      assert Apart(s.tasks[k], s.tasks[l]);
    }
  }

  // No live send exists for a record that is still being prepared, so one more is fine.
  lemma SendIsFirst(s: State, t: ThreadId, r: RequestId, inputs: RequestId -> Input)
    requires Inv(s, inputs) && Holds(s.mem, t, r) && !Committed(StatusOf(s.mem, t))
    ensures var sends := s.sends + [NewSend(r, t)];
      LogsOk(sends, s.starts) && Sound(WithStatus(s.mem, t, Sending), sends, s.starts, inputs)
  {
    NoLiveSend(s.mem, t, s.sends, s.starts, inputs);
    assert RecordOk(s.mem.threads[t].record.value, s.starts, inputs);
    FirstSendIsLogged(s.sends, s.starts, r, t);
    StatusChange(s.mem, t, Sending, s.sends, s.starts, inputs);
    SendIsGuarded(WithStatus(s.mem, t, Sending), s.sends, s.starts, r, t, inputs);
  }

  lemma FirstSendIsLogged(sends: seq<Send>, starts: seq<RequestId>, r: RequestId, t: ThreadId)
    requires LogsOk(sends, starts) && NotSent(sends, r) && NothingLiveFor(sends, t) && (r.App? ==> r in starts)
    ensures LogsOk(sends + [NewSend(r, t)], starts)
  {
  }

  lemma SendIsGuarded(s: Store, sends: seq<Send>, starts: seq<RequestId>, r: RequestId, t: ThreadId,
                      inputs: RequestId -> Input)
    requires Sound(s, sends, starts, inputs) && Holds(s, t, r) && Committed(StatusOf(s, t))
    ensures Sound(s, sends + [NewSend(r, t)], starts, inputs)
  {
    var longer := sends + [NewSend(r, t)];
    forall i | 0 <= i < |longer| ensures Guards(s, longer[i]) {
      if i < |sends| { assert Guards(s, sends[i]); }
    }
  }

  // The task gives up before the provider is called, after at most one failed checkpoint.
  lemma GiveUpKeeps(s: State, k: TaskId, st: Status, disk: Store, save: Save, inputs: RequestId -> Input)
    requires Inv(s, inputs) && k in s.tasks && s.tasks[k].pc.BeforeSend? && !Detached(s, k)
    requires disk == s.disk || disk == WithStatus(s.mem, s.tasks[k].pc.t, Sending)
    ensures Inv(Settle(s.(disk := disk), k, s.tasks[k].pc.t, st, save), inputs)
  {
    var t := s.tasks[k].pc.t;
    assert TaskOk(s, k, inputs);
    SoleDelivery(s, k, inputs);
    WrittenIsSound(s, t, Sending, Saved, inputs);
    SettleKeeps(s, k, t, st, disk, save, s.sends, inputs);
  }

  lemma SendLoggedKeeps(s: State, k: TaskId, inputs: RequestId -> Input)
    requires Inv(s, inputs) && k in s.tasks && s.tasks[k].pc.BeforeSend? && !Detached(s, k)
    requires !s.mem.threads[s.tasks[k].pc.t].archived
    ensures Inv(PrepareStep(s, k, Proceed, Saved, Saved), inputs)
  {
    var t, r := s.tasks[k].pc.t, s.tasks[k].request;
    assert TaskOk(s, k, inputs);
    SoleDelivery(s, k, inputs);
    NoLiveSend(s.mem, t, s.sends, s.starts, inputs);
    SendIsFirst(s, t, r, inputs);
    AdvanceKeeps(s, k, Sending, InSend(t, |s.sends|), s.sends + [NewSend(r, t)], inputs);
  }

  lemma PrepareKeeps(s: State, k: TaskId, outcome: PrepareResult, save: Save, save2: Save, inputs: RequestId -> Input)
    requires Inv(s, inputs) && Enabled(s, PrepareDone(k, outcome, save, save2))
    ensures Inv(PrepareStep(s, k, outcome, save, save2), inputs)
  {
    var t := s.tasks[k].pc.t;
    if Detached(s, k) {
      DetachedKeeps(s, k, save2, inputs);
    } else if outcome.Interrupted? {
      GiveUpKeeps(s, k, Unknown, s.disk, save2, inputs);
    } else if outcome.RejectedEarly? || s.mem.threads[t].archived {
      GiveUpKeeps(s, k, Failed, s.disk, save2, inputs);
    } else if save == Saved {
      SendLoggedKeeps(s, k, inputs);
    } else {
      SendUnsavedKeeps(s, k, save, save2, inputs);
    }
  }

  lemma SendUnsavedKeeps(s: State, k: TaskId, save: Save, save2: Save, inputs: RequestId -> Input)
    requires Inv(s, inputs) && k in s.tasks && s.tasks[k].pc.BeforeSend? && !Detached(s, k)
    requires !s.mem.threads[s.tasks[k].pc.t].archived && save != Saved
    ensures Inv(PrepareStep(s, k, Proceed, save, save2), inputs)
  {
    var t := s.tasks[k].pc.t;
    var mem := WithStatus(s.mem, t, Sending);
    var disk := Write(s.disk, mem, save);
    GiveUpKeeps(s, k, Failed, disk, save2, inputs);
    assert WithStatus(mem, t, Failed) == WithStatus(s.mem, t, Failed);
    assert Settle(s.(disk := disk), k, t, Failed, save2) == Settle(s.(mem := mem, disk := disk), k, t, Failed, save2);
  }

  // Ending its call, a task leaves the calls of the others in flight.
  lemma OthersInFlight(s: State, k: TaskId, send: Send, inputs: RequestId -> Input)
    requires TasksOk(s, inputs) && k in s.tasks && s.tasks[k].pc.InSend? && s.tasks[k].pc.i < |s.sends|
    ensures forall l <- s.tasks :: l != k ==> StillInFlight(s.sends, s.sends[s.tasks[k].pc.i := send], s.tasks[l].pc)
  {
    assert TaskOk(s, k, inputs);
    forall l <- s.tasks | l != k
      ensures StillInFlight(s.sends, s.sends[s.tasks[k].pc.i := send], s.tasks[l].pc)
    {
      assert TaskOk(s, l, inputs) && Apart(s.tasks[k], s.tasks[l]);
    }
  }

  // With the end of its call, no more is live than before.
  lemma CallEndIsSound(s: State, k: TaskId, result: SendResult, inputs: RequestId -> Input)
    requires Inv(s, inputs) && k in s.tasks && s.tasks[k].pc.InSend?
    ensures s.tasks[k].pc.i < |s.sends|
    ensures var sends := s.sends[s.tasks[k].pc.i := Concluded(s.sends[s.tasks[k].pc.i], result)];
      && Sound(s.mem, sends, s.starts, inputs) && Sound(s.disk, sends, s.starts, inputs)
      && LogsOk(sends, s.starts) && LaterLog(s.sends, sends)
  {
    var i := s.tasks[k].pc.i;
    assert TaskOk(s, k, inputs);
    var sends := s.sends[i := Concluded(s.sends[i], result)];
    LogUpdate(s.mem, s.sends, sends, s.starts, inputs);
    LogUpdate(s.disk, s.sends, sends, s.starts, inputs);
  }

  // A call that the provider rejects leaves nothing live for the entry.
  lemma RejectedLeavesNothing(s: State, k: TaskId, inputs: RequestId -> Input)
    requires Inv(s, inputs) && k in s.tasks && s.tasks[k].pc.InSend? && !KnownAccepted(s, k) && !Detached(s, k)
    ensures s.tasks[k].pc.i < |s.sends|
    ensures var pc := s.tasks[k].pc;
      NothingLiveFor(s.sends[pc.i := Concluded(s.sends[pc.i], SendRejected)], pc.t)
  {
    assert TaskOk(s, k, inputs);
  }

  lemma DetachedSendKeeps(s: State, k: TaskId, result: SendResult, save: Save, inputs: RequestId -> Input)
    requires Inv(s, inputs) && k in s.tasks && s.tasks[k].pc.InSend? && s.tasks[k].pc.i < |s.sends| && Detached(s, k)
    ensures Inv(SendStep(s, k, result, save), inputs)
  {
    var send := Concluded(s.sends[s.tasks[k].pc.i], result);
    CallEndIsSound(s, k, result, inputs);
    OthersInFlight(s, k, send, inputs);
    assert GateOk(s.gate, k, s.tasks[k]) by { assert TaskOk(s, k, inputs); }
    EndKeeps(s, k, s.mem, Write(s.disk, s.mem, save), s.sends[s.tasks[k].pc.i := send], inputs);
  }

  lemma ListedSendKeeps(s: State, k: TaskId, result: SendResult, save: Save, inputs: RequestId -> Input)
    requires var e := SendDone(k, result, save); Inv(s, inputs) && Enabled(s, e) && Assumed(s, e, inputs)
    requires !Detached(s, k)
    ensures Inv(SendStep(s, k, result, save), inputs)
  {
    var send := Concluded(s.sends[s.tasks[k].pc.i], result);
    CallEndIsSound(s, k, result, inputs);
    OthersInFlight(s, k, send, inputs);
    SoleDelivery(s, k, inputs);
    if result.SendRejected? { RejectedLeavesNothing(s, k, inputs); }
    var status := match result case SendAccepted => Sent case SendRejected => Failed case SendRaised => Unknown;
    SettleKeeps(s, k, s.tasks[k].pc.t, status, s.disk, save, s.sends[s.tasks[k].pc.i := send], inputs);
  }

  lemma SendKeeps(s: State, k: TaskId, result: SendResult, save: Save, inputs: RequestId -> Input)
    requires var e := SendDone(k, result, save); Inv(s, inputs) && Enabled(s, e) && Assumed(s, e, inputs)
    ensures Inv(SendStep(s, k, result, save), inputs)
  {
    if Detached(s, k) {
      DetachedSendKeeps(s, k, result, save, inputs);
    } else {
      ListedSendKeeps(s, k, result, save, inputs);
    }
  }

  // ---- receipts ----

  // Outcomes, receipts and settled statuses change, and nothing that a task relies on.
  lemma UndisturbedKeeps(s: State, s': State, inputs: RequestId -> Input)
    requires Inv(s, inputs) && RestOk(s', inputs) && Gentle(s, s') && s'.tasks == s.tasks && s'.gate == s.gate
    requires s'.mem.threads.Keys == s.mem.threads.Keys
    requires forall t <- s.mem.threads :: s.mem.threads[t].record.Some? ==>
      && (StatusOf(s.mem, t) in {Preparing, Sending} ==> StatusOf(s'.mem, t) == StatusOf(s.mem, t))
      && (Stuck(s, t) ==> Stuck(s', t))
    requires forall l <- s.tasks :: StillInFlight(s.sends, s'.sends, s.tasks[l].pc)
    ensures Inv(s', inputs)
  {
    forall l <- s.tasks ensures Unnoticed(s, s', s.tasks[l], inputs) {
      assert TaskOk(s, l, inputs);
      assert StatusesStay(s, s', s.tasks[l]);
      GentleIsUnnoticed(s, s', s.tasks[l], inputs);
    }
    NobodyMoves(s, s', inputs);
  }

  lemma ReceiptChange(s: Store, t: ThreadId, receipt: Option<Receipt>, sends: seq<Send>, starts: seq<RequestId>,
                      inputs: RequestId -> Input)
    requires Sound(s, sends, starts, inputs)
    requires t in s.threads && s.threads[t].record.Some? && ReceiptOk(receipt, t, sends)
    ensures Sound(WithReceipt(s, t, receipt), sends, starts, inputs) && SameRecords(s, WithReceipt(s, t, receipt))
  {
    SameRecordsSound(s, WithReceipt(s, t, receipt), sends, starts, inputs);
  }

  // Something more is known of one call, which does not end.
  lemma CallKeeps(s: State, i: nat, send: Send, inputs: RequestId -> Input)
    requires Inv(s, inputs) && i < |s.sends| && SameCall(send, s.sends[i]) && (Live(send) ==> Live(s.sends[i]))
    requires s.sends[i].delivery.InFlight? ==> send.delivery.InFlight?
    ensures Inv(s.(sends := s.sends[i := send]), inputs)
  {
    var sends := s.sends[i := send];
    LogUpdate(s.mem, s.sends, sends, s.starts, inputs);
    LogUpdate(s.disk, s.sends, sends, s.starts, inputs);
    assert LaterLog(s.sends, sends);
    UndisturbedKeeps(s, s.(sends := sends), inputs);
  }

  // A receipt is stored or cleared; a "failed" that is new comes from a call for the entry.
  lemma StoredKeeps(s: State, t: ThreadId, receipt: Option<Receipt>, save: Save, inputs: RequestId -> Input)
    requires Inv(s, inputs) && t in s.mem.threads && s.mem.threads[t].record.Some? && ReceiptOk(receipt, t, s.sends)
    requires var record := s.mem.threads[t].record.value;
      NoWord(s.sends, t, record) ==> NoWord(s.sends, t, record.(receipt := receipt))
    ensures var mem := WithReceipt(s.mem, t, receipt); Inv(s.(mem := mem, disk := Write(s.disk, mem, save)), inputs)
  {
    var mem := WithReceipt(s.mem, t, receipt);
    ReceiptChange(s.mem, t, receipt, s.sends, s.starts, inputs);
    UndisturbedKeeps(s, s.(mem := mem, disk := Write(s.disk, mem, save)), inputs);
  }

  // A receipt only adds to what is known of its call.
  lemma ReceiptKeeps(s: State, t: ThreadId, call: nat, verdict: Verdict, matches: bool, save: Save,
                     inputs: RequestId -> Input)
    requires Inv(s, inputs) && Enabled(s, ReceiptStored(t, call, verdict, matches, save))
    ensures Inv(ReceiptStep(s, t, call, verdict, matches, save), inputs)
  {
    var told := Told(s.sends[call], verdict);
    CallKeeps(s, call, told, inputs);
    var s1 := s.(sends := s.sends[call := told]);
    assert s1.sends[call].thread == t;
    StoredKeeps(s1, t, Some(Receipt(verdict, call, matches)), save, inputs);
  }

  // Another try within a call takes nothing back.
  lemma TryKeeps(s: State, k: TaskId, save: Save, inputs: RequestId -> Input)
    requires Inv(s, inputs) && Enabled(s, TryAgain(k, save))
    ensures Inv(TryStep(s, k, save), inputs)
  {
    var i := s.tasks[k].pc.i;
    if Clears(s, k) {
      StoredKeeps(s, s.tasks[k].pc.t, None, save, inputs);
      var mem := WithReceipt(s.mem, s.tasks[k].pc.t, None);
      if save == Saved { CallKeeps(s.(mem := mem, disk := mem), i, Untold(s.sends[i]), inputs); }
    } else {
      CallKeeps(s, i, Untold(s.sends[i]), inputs);
    }
  }

  // Settling a record from a receipt that settles its last call.
  lemma RecheckKeeps(s: State, t: ThreadId, save: Save, inputs: RequestId -> Input)
    requires Inv(s, inputs) && Enabled(s, Recheck(t, save)) && Assumed(s, Recheck(t, save), inputs)
    ensures Inv(RecheckStep(s, t, save), inputs)
  {
    if Rechecks(s.mem.threads[t]) {
      SettledKeeps(s, t, StatusOf(RecheckStep(s, t, save).mem, t), save, inputs);
    }
  }

  // A record that nobody delivers gets another status.
  lemma SettledKeeps(s: State, t: ThreadId, st: Status, save: Save, inputs: RequestId -> Input)
    requires Inv(s, inputs) && t in s.mem.threads && s.mem.threads[t].record.Some?
    requires StatusOf(s.mem, t) !in {Preparing, Sending} && (Committed(st) || NothingLiveFor(s.sends, t))
    requires Stuck(s, t) ==> st in {Unknown, Sent}
    ensures var mem := WithStatus(s.mem, t, st); Inv(s.(mem := mem, disk := Write(s.disk, mem, save)), inputs)
  {
    var mem := WithStatus(s.mem, t, st);
    StatusChange(s.mem, t, st, s.sends, s.starts, inputs);
    UndisturbedKeeps(s, s.(mem := mem, disk := Write(s.disk, mem, save)), inputs);
  }

  // Whether a recheck keeps the memory sound is decided by the age of the receipt alone.
  lemma RecheckIsSoundExactly(s: State, t: ThreadId, save: Save, inputs: RequestId -> Input)
    requires Inv(s, inputs) && Enabled(s, Recheck(t, save))
    ensures Sound(RecheckStep(s, t, save).mem, s.sends, s.starts, inputs) <==> ReceiptIsCurrent(s, t)
  {
    var s' := RecheckStep(s, t, save);
    if ReceiptIsCurrent(s, t) {
      RecheckKeeps(s, t, save, inputs);
    } else {
      var i :| 0 <= i < |s.sends| && s.sends[i].thread == t && Live(s.sends[i]);
      assert !Guards(s'.mem, s.sends[i]);
    }
  }

  lemma ReboundKeeps(s: State, t: ThreadId, matches: bool, inputs: RequestId -> Input)
    requires Inv(s, inputs) && t in s.mem.threads
    ensures Inv(Step(s, Rebound(t, matches)), inputs)
  {
    if s.mem.threads[t].record.Some? && s.mem.threads[t].record.value.receipt.Some? {
      var receipt := s.mem.threads[t].record.value.receipt.value;
      assert ReceiptOk(Some(receipt), t, s.sends);
      StoredKeeps(s, t, Some(receipt.(matches := matches)), NotWritten, inputs);
    }
  }

  // ---- passes over the list ----

  lemma ThinnedRecords(a: Store, b: Store, r: RequestId)
    requires Thinned(a, b)
    ensures forall t :: Holds(b, t, r) ==> Holds(a, t, r)
    ensures HasRecord(b, r) ==> HasRecord(a, r)
    ensures HasRecord(a, r) && !HasRecord(b, r) ==> exists t <- a.threads :: Holds(a, t, r) && t !in b.threads
  {
    assert forall t :: Holds(b, t, r) ==> Holds(a, t, r);
    if HasRecord(a, r) && !HasRecord(b, r) {
      var t :| t in a.threads && Holds(a, t, r);
      assert t in b.threads ==> Holds(b, t, r);
    }
  }

  // A dropped record is the only one of its request.
  lemma DroppedIsGone(a: Store, b: Store, t: ThreadId, r: RequestId)
    requires UniqueRequests(a) && Thinned(a, b) && Holds(a, t, r) && t !in b.threads
    ensures !HasRecord(b, r)
  {
    forall u <- b.threads ensures !Holds(b, u, r) {
      assert Holds(b, u, r) ==> Holds(a, u, r);
    }
  }

  // What a pass may drop as far as the store alone goes, whatever the tasks do.
  predicate LossIsSound(s: State, kept: Store, t: ThreadId, r: RequestId) {
    if r.App? then Frozen(kept) else NothingLiveFor(s.sends, t)
  }

  predicate LossesAreSound(s: State, kept: Store) {
    forall t <- s.mem.threads :: t !in kept.threads && s.mem.threads[t].record.Some? ==>
      LossIsSound(s, kept, t, s.mem.threads[t].record.value.request)
  }

  lemma ThinnedClaims(s: State, kept: Store, q: RequestId, inputs: RequestId -> Input)
    requires Sound(s.mem, s.sends, s.starts, inputs) && Thinned(s.mem, kept) && LossesAreSound(s, kept)
    requires q in s.starts && q.App?
    ensures Claimed(kept, q)
  {
    assert Claimed(s.mem, q);
    ThinnedRecords(s.mem, kept, q);
    if Frozen(s.mem) { ThinnedRecords(s.mem, kept, s.mem.creation.value.request); }
    if HasRecord(s.mem, q) && !HasRecord(kept, q) {
      var t :| t in s.mem.threads && Holds(s.mem, t, q) && t !in kept.threads;
      assert LossIsSound(s, kept, t, q);
    }
  }

  lemma ThinnedIsSound(s: State, kept: Store, inputs: RequestId -> Input)
    requires Inv(s, inputs) && Thinned(s.mem, kept) && LossesAreSound(s, kept)
    ensures Sound(kept, s.sends, s.starts, inputs)
  {
    forall q | q in s.starts && q.App? ensures Claimed(kept, q) {
      ThinnedClaims(s, kept, q, inputs);
    }
    forall i | 0 <= i < |s.sends| ensures Guards(kept, s.sends[i]) {
      var send := s.sends[i];
      assert Guards(s.mem, send);
      ThinnedRecords(s.mem, kept, send.request);
      if Live(send) && Holds(s.mem, send.thread, send.request) && send.thread !in kept.threads {
        assert LossIsSound(s, kept, send.thread, send.request);
        DroppedIsGone(s.mem, kept, send.thread, send.request);
      }
    }
  }

  // The store that a pass leaves is sound if and only if nothing live was sent for a Telegram
  // record that it drops, and if it drops an app record, a creation without record is open.
  lemma PassIsSoundExactly(s: State, kept: Store, inputs: RequestId -> Input)
    requires Inv(s, inputs) && Thinned(s.mem, kept)
    ensures Sound(kept, s.sends, s.starts, inputs) <==> LossesAreSound(s, kept)
  {
    if LossesAreSound(s, kept) {
      ThinnedIsSound(s, kept, inputs);
    } else {
      var t :| t in s.mem.threads && t !in kept.threads && s.mem.threads[t].record.Some?
               && !LossIsSound(s, kept, t, s.mem.threads[t].record.value.request);
      UnsoundLoss(s, kept, t, s.mem.threads[t].record.value.request, inputs);
    }
  }

  lemma UnsoundLoss(s: State, kept: Store, t: ThreadId, r: RequestId, inputs: RequestId -> Input)
    requires Inv(s, inputs) && Thinned(s.mem, kept) && Holds(s.mem, t, r) && t !in kept.threads
    requires !LossIsSound(s, kept, t, r)
    ensures !Sound(kept, s.sends, s.starts, inputs)
  {
    assert RecordOk(s.mem.threads[t].record.value, s.starts, inputs);
    DroppedIsGone(s.mem, kept, t, r);
    if r.App? {
      assert !Claimed(kept, r);
    } else {
      var i :| 0 <= i < |s.sends| && s.sends[i].thread == t && Live(s.sends[i]);
      assert Guards(s.mem, s.sends[i]) && !Guards(kept, s.sends[i]);
    }
  }

  // A request that some task still has to look for is not dropped.
  lemma WaitedIsKept(s: State, kept: Store, r: RequestId)
    requires Thinned(s.mem, kept) && PassIsHarmless(s, kept) && HasRecord(s.mem, r) && r.App? && Waited(s, r)
    ensures HasRecord(kept, r)
  {
    forall t | Holds(s.mem, t, r) ensures t in kept.threads {
      assert t !in kept.threads ==> LossIsHarmless(s, kept, t, r);
    }
    var t :| t in s.mem.threads && Holds(s.mem, t, r);
    assert Holds(kept, t, r);
  }

  // While an app creation is on its way to a record, no record of another is dropped.
  lemma OthersAreKept(s: State, kept: Store, k: TaskId)
    requires Thinned(s.mem, kept) && PassIsHarmless(s, kept)
    requires k in s.tasks && s.tasks[k].app && !PastScan(s.tasks[k].pc) && OthersRecorded(s, s.tasks[k].request)
    requires s.mem.creation.Some? && s.mem.creation.value.request == s.tasks[k].request
    ensures OthersRecorded(s.(mem := kept), s.tasks[k].request)
  {
    forall q | q in s.starts && q.App? && q != s.tasks[k].request ensures HasRecord(kept, q) {
      forall t | Holds(s.mem, t, q) ensures t in kept.threads {
        assert t !in kept.threads ==> LossIsHarmless(s, kept, t, q);
      }
      var t :| t in s.mem.threads && Holds(s.mem, t, q);
      assert Holds(kept, t, q);
    }
  }

  lemma ThinnedTask(s: State, kept: Store, k: TaskId, inputs: RequestId -> Input)
    requires Inv(s, inputs) && Thinned(s.mem, kept) && PassIsHarmless(s, kept) && k in s.tasks
    ensures TaskOk(s.(mem := kept), k, inputs)
  {
    var s' := s.(mem := kept);
    var task := s.tasks[k];
    assert TaskOk(s, k, inputs);
    ThinnedRecords(s.mem, kept, task.request);
    match task.pc
    case Queued | WaitingLock =>
      if HasRecord(s.mem, task.request) && task.request.App? {
        WaitedIsKept(s, kept, task.request);
        if MismatchIsHarmless(s, task.request) {
          HarmlessStays(s, s', task.request);
        }
      } else if task.app {
        OthersAreKept(s, kept, k);
      }
    case Creating =>
      if task.app { OthersAreKept(s, kept, k); }
    case _ =>
  }

  lemma PassKeeps(s: State, kept: Store, inputs: RequestId -> Input)
    requires Inv(s, inputs) && Thinned(s.mem, kept) && PassIsHarmless(s, kept)
    ensures Inv(s.(mem := kept), inputs)
  {
    forall t <- s.mem.threads | t !in kept.threads && s.mem.threads[t].record.Some?
      ensures LossIsSound(s, kept, t, s.mem.threads[t].record.value.request)
    {
      assert LossIsHarmless(s, kept, t, s.mem.threads[t].record.value.request);
    }
    ThinnedIsSound(s, kept, inputs);
    forall l <- s.tasks ensures TaskOk(s.(mem := kept), l, inputs) {
      ThinnedTask(s, kept, l, inputs);
    }
  }

  lemma NewEntryCreates(s: State, k: TaskId, t: ThreadId, save: Save, save2: Save, inputs: RequestId -> Input)
    requires Inv(s, inputs) && k in s.tasks && s.tasks[k].pc.Creating? && NewEntry(s, t)
    ensures Inv(CreateStep(s, k, Created(t), save, save2), inputs)
  {
    if save == Saved {
      CreatedKeeps(s, k, t, inputs);
    } else if s.tasks[k].app {
      UnsavedCreateKeeps(s, k, t, save, save2, inputs);
    } else {
      UnsavedTelegramKeeps(s, k, t, save, save2, inputs);
    }
  }

  // An entry that the new one replaces may as well have been dropped before.
  lemma CreatesTheSame(s: State, k: TaskId, t: ThreadId, save: Save, save2: Save)
    requires k in s.tasks
    ensures CreateStep(s, k, Created(t), save, save2)
         == CreateStep(s.(mem := Without(s.mem, t)), k, Created(t), save, save2)
  {
    var dropped := s.(mem := Without(s.mem, t));
    var record := NewRecord(s.tasks[k]);
    assert Inserted(dropped.mem, t, record) == Inserted(s.mem, t, record);
  }

  lemma ReplaceKeeps(s: State, k: TaskId, t: ThreadId, save: Save, save2: Save, inputs: RequestId -> Input)
    requires Inv(s, inputs) && k in s.tasks && s.tasks[k].pc.Creating?
    requires t in s.mem.threads && ReplaceIsHarmless(s, t)
    ensures Inv(CreateStep(s, k, Created(t), save, save2), inputs)
  {
    PassKeeps(s, Without(s.mem, t), inputs);
    ReplacedIsNew(s, k, t, inputs);
    NewEntryCreates(s.(mem := Without(s.mem, t)), k, t, save, save2, inputs);
    CreatesTheSame(s, k, t, save, save2);
  }

  lemma ReplacedIsNew(s: State, k: TaskId, t: ThreadId, inputs: RequestId -> Input)
    requires Inv(s, inputs) && k in s.tasks && s.tasks[k].pc.Creating?
    requires t in s.mem.threads && ReplaceIsHarmless(s, t)
    ensures NewEntry(s.(mem := Without(s.mem, t)), t)
  {
  }

  lemma CreateDoneKeeps(s: State, k: TaskId, result: CreateResult, save: Save, save2: Save, inputs: RequestId -> Input)
    requires var e := CreateDone(k, result, save, save2); Inv(s, inputs) && Enabled(s, e) && Assumed(s, e, inputs)
    ensures Inv(CreateStep(s, k, result, save, save2), inputs)
  {
    assert TaskOk(s, k, inputs);
    match result
    case Created(t) =>
      if t in s.mem.threads {
        ReplaceKeeps(s, k, t, save, save2, inputs);
      } else {
        NewEntryCreates(s, k, t, save, save2, inputs);
      }
    case CreateError =>
      if s.tasks[k].app { RaisedKeeps(s, k, save2, inputs); } else { TelegramRaisedKeeps(s, k, save2, inputs); }
    case CreateCancelled => EndKeeps(s, k, s.mem, s.disk, s.sends, inputs);
  }

  // ---- events of the surroundings ----

  lemma ArchiveKeeps(s: State, t: ThreadId, archived: bool, inputs: RequestId -> Input)
    requires Inv(s, inputs) && t in s.mem.threads
    ensures Inv(Step(s, SetArchived(t, archived)), inputs)
  {
    var s' := Step(s, SetArchived(t, archived));
    ListedIsSound(s.mem, t, s.mem.threads[t].(archived := archived), s.sends, s.starts, inputs);
    UndisturbedKeeps(s, s', inputs);
  }

  // An entry is archived, or a new one is added without a record.
  lemma ListedIsSound(s: Store, t: ThreadId, th: Thread, sends: seq<Send>, starts: seq<RequestId>,
                      inputs: RequestId -> Input)
    requires Sound(s, sends, starts, inputs)
    requires if t in s.threads then th.record == s.threads[t].record else th.record.None? && NothingLiveFor(sends, t)
    ensures var s' := s.(threads := s.threads[t := th]); SameRecords(s, s') && Sound(s', sends, starts, inputs)
  {
    SameRecordsSound(s, s.(threads := s.threads[t := th]), sends, starts, inputs);
  }

  lemma RegisterKeeps(s: State, t: ThreadId, inputs: RequestId -> Input)
    requires Inv(s, inputs) && FreshEntry(s, t)
    ensures Inv(Step(s, RegisterThread(t)), inputs)
  {
    var s' := Step(s, RegisterThread(t));
    ListedIsSound(s.mem, t, Thread(false, None), s.sends, s.starts, inputs);
    forall l <- s.tasks ensures Unnoticed(s, s', s.tasks[l], inputs) {
      assert TaskOk(s, l, inputs);
      RegisterIsUnnoticed(s, t, s.tasks[l], inputs);
    }
    NobodyMoves(s, s', inputs);
  }

  lemma RegisterIsUnnoticed(s: State, t: ThreadId, task: Task, inputs: RequestId -> Input)
    requires PlaceOk(s, task, inputs) && FreshEntry(s, t) && (PastScan(task.pc) ==> task.pc.t != t)
    ensures Unnoticed(s, Step(s, RegisterThread(t)), task, inputs)
  {
    GentleIsUnnoticed(s, Step(s, RegisterThread(t)), task, inputs);
  }

  lemma CheckpointKeeps(s: State, save: Save, inputs: RequestId -> Input)
    requires Inv(s, inputs)
    ensures Inv(Step(s, Checkpoint(save)), inputs)
  {
    UndisturbedKeeps(s, Step(s, Checkpoint(save)), inputs);
  }

  lemma GateEventKeeps(s: State, ge: GateEvent, inputs: RequestId -> Input)
    requires Inv(s, inputs) && Enabled(s, Other(ge))
    ensures Inv(Step(s, Other(ge)), inputs)
  {
    var s' := Step(s, Other(ge));
    NextKeepsExclusion(s.gate, ge);
    forall l <- s.tasks ensures Unnoticed(s, s', s.tasks[l], inputs) {
      assert TaskOk(s, l, inputs);
      GentleIsUnnoticed(s, s', s.tasks[l], inputs);
    }
    NobodyMoves(s, s', inputs);
  }

  lemma CrashKeeps(s: State, survivor: Store, inputs: RequestId -> Input)
    requires Inv(s, inputs) && Enabled(s, Crash(survivor))
    ensures Inv(Step(s, Crash(survivor)), inputs)
  {
    LogUpdate(s.disk, s.sends, CutOff(s.sends), s.starts, inputs);
    RestoredIsSound(s.disk, survivor, CutOff(s.sends), s.starts, inputs);
    RestoredIsSound(s.disk, Restored(s.disk), CutOff(s.sends), s.starts, inputs);
  }

  predicate OfTask(e: Event) {
    e.Begin? || e.Acquire? || e.CreateDone? || e.EnterSend? || e.PrepareDone? || e.SendDone? || e.CancelIdle?
  }

  lemma TaskEventKeeps(s: State, e: Event, inputs: RequestId -> Input)
    requires Inv(s, inputs) && Enabled(s, e) && Assumed(s, e, inputs) && OfTask(e)
    ensures Inv(Step(s, e), inputs)
  {
    match e
    case Begin(k, save) => BeginKeeps(s, k, save, inputs);
    case Acquire(k, save) => AcquireKeeps(s, k, save, inputs);
    case CreateDone(k, result, save, save2) => CreateDoneKeeps(s, k, result, save, save2, inputs);
    case EnterSend(k, save) => EnterSendKeeps(s, k, save, inputs);
    case PrepareDone(k, outcome, save, save2) => PrepareKeeps(s, k, outcome, save, save2, inputs);
    case SendDone(k, result, save) => SendKeeps(s, k, result, save, inputs);
    case CancelIdle(k) => CancelIdleKeeps(s, k, inputs);
  }

  lemma ResumeKeeps(s: State, k: TaskId, t: ThreadId, inputs: RequestId -> Input)
    requires Inv(s, inputs) && Enabled(s, TelegramResume(k, t))
    ensures Inv(Step(s, TelegramResume(k, t)), inputs)
  {
    var record := s.mem.threads[t].record.value;
    assert Holds(s.mem, t, record.request);
    SpawnKeeps(s, k, Task(false, record.request, Input(record.input.text, []), Queued), inputs);
  }

  lemma NewTaskKeeps(s: State, e: Event, inputs: RequestId -> Input)
    requires Inv(s, inputs) && Enabled(s, e) && Assumed(s, e, inputs)
    requires e.Submit? || e.TelegramNew? || e.TelegramResume?
    ensures Inv(Step(s, e), inputs)
  {
    match e
    case Submit(h, k, r, input, save) => SubmitKeeps(s, h, k, r, input, save, inputs);
    case TelegramNew(k, r, text) => SpawnKeeps(s, k, Task(false, r, Input(text, []), Queued), inputs);
    case TelegramResume(k, t) => ResumeKeeps(s, k, t, inputs);
  }

  lemma ReceiptEventKeeps(s: State, e: Event, inputs: RequestId -> Input)
    requires Inv(s, inputs) && Enabled(s, e) && Assumed(s, e, inputs)
    requires e.ReceiptStored? || e.TryAgain? || e.Recheck? || e.Rebound?
    ensures Inv(Step(s, e), inputs)
  {
    match e
    case ReceiptStored(t, call, verdict, matches, save) => ReceiptKeeps(s, t, call, verdict, matches, save, inputs);
    case TryAgain(k, save) => TryKeeps(s, k, save, inputs);
    case Recheck(t, save) => RecheckKeeps(s, t, save, inputs);
    case Rebound(t, matches) => ReboundKeeps(s, t, matches, inputs);
  }

  lemma ListEventKeeps(s: State, e: Event, inputs: RequestId -> Input)
    requires Inv(s, inputs) && Enabled(s, e) && Assumed(s, e, inputs)
    requires e.SetArchived? || e.RegisterThread? || e.Checkpoint? || e.ListPass?
    ensures Inv(Step(s, e), inputs)
  {
    match e
    case SetArchived(t, archived) => ArchiveKeeps(s, t, archived, inputs);
    case RegisterThread(t) => RegisterKeeps(s, t, inputs);
    case Checkpoint(save) => CheckpointKeeps(s, save, inputs);
    case ListPass(kept) => PassKeeps(s, kept, inputs);
  }

  lemma StepKeeps(s: State, e: Event, inputs: RequestId -> Input)
    requires Inv(s, inputs) && Enabled(s, e) && Assumed(s, e, inputs)
    ensures Inv(Step(s, e), inputs)
  {
    if OfTask(e) {
      TaskEventKeeps(s, e, inputs);
    } else if e.Submit? || e.TelegramNew? || e.TelegramResume? {
      NewTaskKeeps(s, e, inputs);
    } else if e.ReceiptStored? || e.TryAgain? || e.Recheck? || e.Rebound? {
      ReceiptEventKeeps(s, e, inputs);
    } else if e.Other? {
      GateEventKeeps(s, e.gateEvent, inputs);
    } else if e.Crash? {
      CrashKeeps(s, e.survivor, inputs);
    } else {
      ListEventKeeps(s, e, inputs);
    }
  }

  // ---- every run ----

  ghost predicate AssumedRun(s: State, es: seq<Event>, inputs: RequestId -> Input)
    requires ValidRun(s, es)
    decreases |es|
  {
    es == [] || (Assumed(s, es[0], inputs) && AssumedRun(Step(s, es[0]), es[1..], inputs))
  }

  lemma {:induction false} RunKeeps(s: State, es: seq<Event>, inputs: RequestId -> Input)
    requires ValidRun(s, es) && AssumedRun(s, es, inputs) && Inv(s, inputs)
    ensures Inv(After(s, es), inputs)
    decreases |es|
  {
    if es != [] {
      StepKeeps(s, es[0], inputs);
      RunKeeps(Step(s, es[0]), es[1..], inputs);
    }
  }

  // A first message is sent at most once, apart from sends the provider rejected, over
  // every run of retries, concurrent handlers, failed saves, cancellations and restarts.
  lemma AtMostOneLiveSend(es: seq<Event>, inputs: RequestId -> Input)
    requires ValidRun(Init, es) && AssumedRun(Init, es, inputs)
    ensures SendsAtMostOnce(After(Init, es).sends)
  {
    RunKeeps(Init, es, inputs);
  }

  // start_thread is called at most once per app request id.
  lemma AtMostOneAppCreation(es: seq<Event>, inputs: RequestId -> Input)
    requires ValidRun(Init, es) && AssumedRun(Init, es, inputs)
    ensures CreatesAtMostOnce(After(Init, es).starts)
  {
    RunKeeps(Init, es, inputs);
  }

  // An app creation starts only under its own unresolved reservation, so none starts
  // while the last creation of the workspace belongs to another request and is open.
  lemma StartOnlyUnderOwnReservation(es: seq<Event>, inputs: RequestId -> Input, k: TaskId, save: Save)
    requires ValidRun(Init, es) && AssumedRun(Init, es, inputs)
    requires Enabled(After(Init, es), Acquire(k, save)) && After(Init, es).tasks[k].app
    requires |Step(After(Init, es), Acquire(k, save)).starts| > |After(Init, es).starts|
    ensures var s := After(Init, es); var r := s.tasks[k].request;
      && s.mem.creation.Some? && s.mem.creation.value.request == r
      && s.mem.creation.value.status == CreationPreparing
      && Reserved(s.disk, r) && r !in s.starts
  {
    RunKeeps(Init, es, inputs);
    assert TaskOk(After(Init, es), k, inputs);
  }

  // ---- the record of a live send ----

  // Every live send's record is there, in memory and on disk.
  predicate Recorded(s: State) {
    forall i :: 0 <= i < |s.sends| && Live(s.sends[i]) ==>
      HasRecord(s.mem, s.sends[i].request) && HasRecord(s.disk, s.sends[i].request)
  }

  // No record goes for which something live was sent.
  predicate DropsNothingSent(s: State, e: Event) {
    e.ListPass? ==> forall t <- s.mem.threads ::
      t !in e.kept.threads && s.mem.threads[t].record.Some? ==> NothingLiveFor(s.sends, t)
  }

  lemma RecordedStays(s: State, s': State)
    requires Recorded(s) && SameEntries(s.mem, s'.mem) && (s'.disk == s.disk || SameEntries(s.mem, s'.disk))
    requires forall i :: 0 <= i < |s'.sends| && Live(s'.sends[i]) ==>
      || (i < |s.sends| && Live(s.sends[i]) && SameCall(s.sends[i], s'.sends[i]))
      || (HasRecord(s'.mem, s'.sends[i].request) && HasRecord(s'.disk, s'.sends[i].request))
    ensures Recorded(s')
  {
    forall i | 0 <= i < |s'.sends| && Live(s'.sends[i])
      ensures HasRecord(s'.mem, s'.sends[i].request) && HasRecord(s'.disk, s'.sends[i].request)
    {
      if i < |s.sends| && Live(s.sends[i]) && SameCall(s.sends[i], s'.sends[i]) {
        KeptRecord(s.mem, s'.mem, s.sends[i].request);
        if s'.disk != s.disk { KeptRecord(s.mem, s'.disk, s.sends[i].request); }
      }
    }
  }

  lemma RaisedKeepsRecorded(s: State, k: TaskId, save: Save)
    requires Recorded(s) && k in s.tasks
    ensures Recorded(Raised(s, k, save))
  {
    RecordedStays(s, Raised(s, k, save));
  }

  lemma ScanKeepsRecorded(s: State, k: TaskId, save: Save)
    requires Recorded(s) && k in s.tasks
    ensures Recorded(BeginStep(s, k, save)) && Recorded(AcquireStep(s, k, save))
  {
    RaisedKeepsRecorded(s, k, save);
    var released := s.(gate := Release(s.gate, Nested(k)));
    assert Recorded(released);
    RaisedKeepsRecorded(released, k, save);
    if HasRecord(s.mem, s.tasks[k].request) {
      RecordedStays(s, Obtained(s, k, RecordOf(s.mem, s.tasks[k].request)));
    }
  }

  lemma CreateKeepsRecorded(s: State, k: TaskId, result: CreateResult, save: Save, save2: Save,
                            inputs: RequestId -> Input)
    requires var e := CreateDone(k, result, save, save2);
      Recorded(s) && Inv(s, inputs) && Enabled(s, e) && Assumed(s, e, inputs)
    ensures Recorded(CreateStep(s, k, result, save, save2))
  {
    if result.Created? && result.t in s.mem.threads {
      var dropped := s.(mem := Without(s.mem, result.t));
      PassKeepsRecorded(s, Without(s.mem, result.t), inputs);
      CreatesTheSame(s, k, result.t, save, save2);
      NewEntryKeepsRecorded(dropped, k, result, save, save2);
    } else {
      NewEntryKeepsRecorded(s, k, result, save, save2);
    }
  }

  lemma NewEntryKeepsRecorded(s: State, k: TaskId, result: CreateResult, save: Save, save2: Save)
    requires Recorded(s) && k in s.tasks && (result.Created? ==> result.t !in s.mem.threads)
    ensures Recorded(CreateStep(s, k, result, save, save2))
  {
    var s' := CreateStep(s, k, result, save, save2);
    if result.Created? {
      var mem := Inserted(s.mem, result.t, NewRecord(s.tasks[k]));
      assert Holds(mem, result.t, s.tasks[k].request);
      assert SameEntries(s.mem, mem) && SameEntries(mem, s'.mem);
    }
    assert SameEntries(s.mem, s'.mem) && (s'.disk == s.disk || SameEntries(s.mem, s'.disk)) && s'.sends == s.sends;
    RecordedStays(s, s');
  }

  lemma PassKeepsRecorded(s: State, kept: Store, inputs: RequestId -> Input)
    requires Recorded(s) && Inv(s, inputs) && Thinned(s.mem, kept)
    requires forall t <- s.mem.threads ::
      t !in kept.threads && s.mem.threads[t].record.Some? ==> NothingLiveFor(s.sends, t)
    ensures Recorded(s.(mem := kept))
  {
    forall i | 0 <= i < |s.sends| && Live(s.sends[i]) ensures HasRecord(kept, s.sends[i].request) {
      assert Guards(s.mem, s.sends[i]);
      assert Holds(kept, s.sends[i].thread, s.sends[i].request);
    }
  }

  lemma StatusKeepsEntries(s: Store, t: ThreadId, st: Status)
    requires t in s.threads && s.threads[t].record.Some?
    ensures SameEntries(s, WithStatus(s, t, st))
  {
  }

  lemma EnteringKeepsRecorded(s: State, k: TaskId, save: Save)
    requires Recorded(s) && k in s.tasks && s.tasks[k].pc.HasThread?
    ensures Recorded(EnterSendStep(s, k, save))
  {
    var t := s.tasks[k].pc.t;
    if !Detached(s, k) && StatusOf(s.mem, t) in {Pending, Failed} {
      StatusKeepsEntries(s.mem, t, Preparing);
      StatusKeepsEntries(s.mem, t, Pending);
      RecordedStays(s, EnterSendStep(s, k, save));
    } else {
      SameStoreKeepsRecorded(s, EnterSendStep(s, k, save));
    }
  }

  lemma SameStoreKeepsRecorded(s: State, s': State)
    requires Recorded(s) && s'.mem == s.mem && (s'.disk == s.disk || s'.disk == s.mem) && s'.sends == s.sends
    ensures Recorded(s')
  {
  }

  lemma PreparingKeepsRecorded(s: State, k: TaskId, outcome: PrepareResult, save: Save, save2: Save)
    requires Recorded(s) && k in s.tasks && s.tasks[k].pc.BeforeSend?
    ensures Recorded(PrepareStep(s, k, outcome, save, save2))
  {
    var s' := PrepareStep(s, k, outcome, save, save2);
    assert SameEntries(s.mem, s'.mem);
    if |s'.sends| > |s.sends| { SendIsRecorded(s, k); } else { RecordedStays(s, s'); }
  }

  lemma SendIsRecorded(s: State, k: TaskId)
    requires Recorded(s) && k in s.tasks && s.tasks[k].pc.BeforeSend? && !Detached(s, k)
    requires !s.mem.threads[s.tasks[k].pc.t].archived
    ensures Recorded(PrepareStep(s, k, Proceed, Saved, Saved))
  {
    var s' := PrepareStep(s, k, Proceed, Saved, Saved);
    assert Holds(s'.mem, s.tasks[k].pc.t, s.tasks[k].request);
    RecordedStays(s, s');
  }

  lemma SendingKeepsRecorded(s: State, k: TaskId, result: SendResult, save: Save)
    requires Recorded(s) && k in s.tasks && s.tasks[k].pc.InSend? && s.tasks[k].pc.i < |s.sends|
    requires s.sends[s.tasks[k].pc.i].delivery.InFlight?
    ensures Recorded(SendStep(s, k, result, save))
  {
    var s' := SendStep(s, k, result, save);
    assert SameEntries(s.mem, s'.mem) && (s'.disk == s.disk || s'.disk == s'.mem);
    assert s'.sends == s.sends[s.tasks[k].pc.i := Concluded(s.sends[s.tasks[k].pc.i], result)];
    RecordedStays(s, s');
  }

  lemma NewTaskKeepsRecorded(s: State, e: Event)
    requires Recorded(s) && Enabled(s, e) && (e.Submit? || e.TelegramNew? || e.TelegramResume?)
    ensures Recorded(Step(s, e))
  {
    RecordedStays(s, Step(s, e));
  }

  lemma ReceiptEventKeepsRecorded(s: State, e: Event)
    requires Recorded(s) && Enabled(s, e) && (e.ReceiptStored? || e.TryAgain? || e.Recheck? || e.Rebound?)
    ensures Recorded(Step(s, e))
  {
    RecordedStays(s, Step(s, e));
  }

  lemma ListEventKeepsRecorded(s: State, e: Event)
    requires Recorded(s) && Enabled(s, e)
    requires e.SetArchived? || e.RegisterThread? || e.Checkpoint? || e.Other? || e.CancelIdle?
    ensures Recorded(Step(s, e))
  {
    RecordedStays(s, Step(s, e));
  }

  lemma RestartKeepsRecord(disk: Store, survivor: Store, r: RequestId)
    requires PartlyRestored(disk, survivor) && HasRecord(disk, r)
    ensures HasRecord(Restored(disk), r) && HasRecord(survivor, r)
  {
    KeptRecord(disk, Restored(disk), r);
    KeptRecord(disk, survivor, r);
  }

  lemma CrashKeepsRecorded(s: State, survivor: Store)
    requires Recorded(s) && Enabled(s, Crash(survivor))
    ensures Recorded(Step(s, Crash(survivor)))
  {
    forall i | 0 <= i < |s.sends| && Live(s.sends[i])
      ensures HasRecord(Restored(s.disk), s.sends[i].request) && HasRecord(survivor, s.sends[i].request)
    {
      RestartKeepsRecord(s.disk, survivor, s.sends[i].request);
    }
    assert forall i :: 0 <= i < |s.sends| && Live(CutOff(s.sends)[i]) ==> Live(s.sends[i]);
  }

  lemma StepKeepsRecorded(s: State, e: Event, inputs: RequestId -> Input)
    requires Recorded(s) && Inv(s, inputs) && Enabled(s, e) && Assumed(s, e, inputs) && DropsNothingSent(s, e)
    ensures Recorded(Step(s, e))
  {
    match e
    case Submit(_, _, _, _, _) | TelegramNew(_, _, _) | TelegramResume(_, _) => NewTaskKeepsRecorded(s, e);
    case Begin(k, save) => ScanKeepsRecorded(s, k, save);
    case Acquire(k, save) => ScanKeepsRecorded(s, k, save);
    case CreateDone(k, result, save, save2) => CreateKeepsRecorded(s, k, result, save, save2, inputs);
    case EnterSend(k, save) => EnteringKeepsRecorded(s, k, save);
    case PrepareDone(k, outcome, save, save2) => PreparingKeepsRecorded(s, k, outcome, save, save2);
    case SendDone(k, result, save) =>
      assert TaskOk(s, k, inputs);
      SendingKeepsRecorded(s, k, result, save);
    case ReceiptStored(_, _, _, _, _) | TryAgain(_, _) | Recheck(_, _) | Rebound(_, _) =>
      ReceiptEventKeepsRecorded(s, e);
    case ListPass(kept) => PassKeepsRecorded(s, kept, inputs);
    case Crash(survivor) => CrashKeepsRecorded(s, survivor);
    case _ => ListEventKeepsRecorded(s, e);
  }

  ghost predicate DropsNothingSentRun(s: State, es: seq<Event>)
    requires ValidRun(s, es)
    decreases |es|
  {
    es == [] || (DropsNothingSent(s, es[0]) && DropsNothingSentRun(Step(s, es[0]), es[1..]))
  }

  lemma {:induction false} RunKeepsRecorded(s: State, es: seq<Event>, inputs: RequestId -> Input)
    requires ValidRun(s, es) && AssumedRun(s, es, inputs) && DropsNothingSentRun(s, es)
    requires Inv(s, inputs) && Recorded(s)
    ensures Inv(After(s, es), inputs) && Recorded(After(s, es))
    decreases |es|
  {
    if es != [] {
      StepKeeps(s, es[0], inputs);
      StepKeepsRecorded(s, es[0], inputs);
      RunKeepsRecorded(Step(s, es[0]), es[1..], inputs);
    }
  }

  // After a live send, the record says so both in memory and on the disk, as long as no
  // entry is dropped for which something live was sent.
  lemma DurableAfterSend(es: seq<Event>, inputs: RequestId -> Input, i: nat)
    requires ValidRun(Init, es) && AssumedRun(Init, es, inputs) && DropsNothingSentRun(Init, es)
    requires i < |After(Init, es).sends| && Live(After(Init, es).sends[i])
    ensures var s := After(Init, es); var send := s.sends[i];
      && Holds(s.disk, send.thread, send.request) && StatusOf(s.disk, send.thread) in {Sending, Unknown, Sent}
      && Holds(s.mem, send.thread, send.request) && StatusOf(s.mem, send.thread) in {Sending, Unknown, Sent}
  {
    RunKeepsRecorded(Init, es, inputs);
    var s := After(Init, es);
    assert Guards(s.disk, s.sends[i]) && Guards(s.mem, s.sends[i]);
  }
}
