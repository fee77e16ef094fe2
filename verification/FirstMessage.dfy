/**
 Session creation and delivery of the first message, as a step system over one workspace.

 One event is one stretch of code between two suspension points; its save outcomes are
 part of the event.  A save that fails may still have reached the disk.  Crashing in the
 middle of a stretch needs no event of its own: it leaves the same disk and the same
 provider log as the stretch whose remaining saves are `NotWritten`, followed by `Crash`.
*/
module FirstMessage {
  import opened Prelude
  import opened UpdateLease

  // An entry of the thread list, one for each object the program ever puts there.  A rebind
  // gives the entry another provider id and keeps its record; a delivery that was under way
  // is then rejected before its send.
  type ThreadId = nat
  type TaskId = nat

  // A client-chosen id, or "telegram_new_thread:<chat>:<message>".
  datatype RequestId = App(id: nat) | Telegram(id: nat)

  datatype Input = Input(text: string, attachments: seq<string>)

  datatype Verdict = VerdictSent | VerdictFailed

  // providerReceipt: the answer to one try within the provider call sends[call].  `matches`
  // tells whether its thread id is the one the entry is bound to.
  datatype Receipt = Receipt(verdict: Verdict, call: nat, matches: bool)

  // new_session_recovery
  datatype Record = Record(request: RequestId, input: Input, status: Status, receipt: Option<Receipt>)

  datatype Thread = Thread(archived: bool, record: Option<Record>)

  datatype CreationStatus = CreationPreparing | CreationUnknown | CreationFailed

  // pending_new_session
  datatype Creation = Creation(request: RequestId, input: Input, status: CreationStatus)

  // The part of a workspace that save_storage writes.
  datatype Store = Store(threads: map<ThreadId, Thread>, creation: Option<Creation>)

  // Where a background task (app) or a Telegram handler stands.
  datatype Pc =
    | Queued                          // before the nested admission of start_real_provider_thread
    | WaitingLock                     // admitted, waiting for new_session_lock
    | Creating                        // holds the lock, awaits start_thread
    | HasThread(t: ThreadId)          // about to enter send_started_provider_thread_message
    | BeforeSend(t: ThreadId)         // awaits the gateway and ensure_connected
    | InSend(t: ThreadId, i: nat)     // awaits message_hooks.send, logged as sends[i]

  datatype Task = Task(app: bool, request: RequestId, input: Input, pc: Pc)

  // What became of one call of message_hooks.send.  The call may try more than once; `told` is
  // what a receipt has said of its present try.  Only the end of the call settles it.
  datatype Delivery = InFlight(told: Option<Verdict>) | Accepted | Rejected | Lost

  // `confirmed`: some receipt has said that it was accepted.
  datatype Send = Send(request: RequestId, thread: ThreadId, delivery: Delivery, confirmed: bool)

  datatype State = State(
    gate: Gate,
    mem: Store,
    disk: Store,
    tasks: map<TaskId, Task>,
    starts: seq<RequestId>,  // calls of start_thread, oldest first
    sends: seq<Send>)        // calls of message_hooks.send, oldest first

  datatype CreateResult = Created(t: ThreadId) | CreateError | CreateCancelled
  datatype PrepareResult = Proceed | RejectedEarly | Interrupted
  datatype SendResult = SendAccepted | SendRejected | SendRaised

  datatype Event =
    | Submit(handler: nat, task: TaskId, request: RequestId, input: Input, save: Save)
    | TelegramNew(task: TaskId, request: RequestId, text: string)
    | TelegramResume(task: TaskId, t: ThreadId)
    | Begin(task: TaskId, save: Save)
    | Acquire(task: TaskId, save: Save)
    | CreateDone(task: TaskId, result: CreateResult, save: Save, save2: Save)
    | EnterSend(task: TaskId, save: Save)
    | PrepareDone(task: TaskId, outcome: PrepareResult, save: Save, save2: Save)
    | SendDone(task: TaskId, sendResult: SendResult, save: Save)
    | CancelIdle(task: TaskId)
    | ReceiptStored(t: ThreadId, call: nat, verdict: Verdict, matches: bool, save: Save)
    | TryAgain(task: TaskId, save: Save)
    | Recheck(t: ThreadId, save: Save)
    | Rebound(t: ThreadId, matches: bool)
    | SetArchived(t: ThreadId, archived: bool)
    | RegisterThread(t: ThreadId)
    | ListPass(kept: Store)
    | Checkpoint(save: Save)
    | Other(gateEvent: GateEvent)
    | Crash(survivor: Store)

  const EmptyStore := Store(map[], None)
  const Init := State(IdleGate, EmptyStore, EmptyStore, map[], [], [])

  // ---- records and reservations ----

  predicate Holds(s: Store, t: ThreadId, r: RequestId) {
    t in s.threads && s.threads[t].record.Some? && s.threads[t].record.value.request == r
  }

  predicate HasRecord(s: Store, r: RequestId) {
    exists t <- s.threads :: Holds(s, t, r)
  }

  ghost function RecordOf(s: Store, r: RequestId): ThreadId
    requires HasRecord(s, r)
    ensures Holds(s, RecordOf(s, r), r)
  {
    var t :| t in s.threads && Holds(s, t, r); t
  }

  function WithStatus(s: Store, t: ThreadId, status: Status): Store
    requires t in s.threads && s.threads[t].record.Some?
  {
    var th := s.threads[t];
    s.(threads := s.threads[t := th.(record := Some(th.record.value.(status := status)))])
  }

  function WithReceipt(s: Store, t: ThreadId, receipt: Option<Receipt>): Store
    requires t in s.threads && s.threads[t].record.Some?
  {
    var th := s.threads[t];
    s.(threads := s.threads[t := th.(record := Some(th.record.value.(receipt := receipt)))])
  }

  function StatusOf(s: Store, t: ThreadId): Status
    requires t in s.threads && s.threads[t].record.Some?
  {
    s.threads[t].record.value.status
  }

  // The outcome of a send of this record is settled or unknown, so it is not sent again.
  predicate Committed(st: Status) {
    st == Sending || st == Unknown || st == Sent
  }

  predicate Blocks(c: Option<Creation>) {
    c.Some? && c.value.status != CreationFailed
  }

  predicate Reserved(s: Store, r: RequestId) {
    Blocks(s.creation) && s.creation.value.request == r
  }

  function Write(disk: Store, mem: Store, save: Save): Store {
    if save == NotWritten then disk else mem
  }

  function ClearCreation(s: Store, r: RequestId): Store {
    if s.creation.Some? && s.creation.value.request == r then s.(creation := None) else s
  }

  // ---- tasks ----

  function At(s: State, k: TaskId, pc: Pc): State
    requires k in s.tasks
  {
    s.(tasks := s.tasks[k := s.tasks[k].(pc := pc)])
  }

  function Ended(s: State, k: TaskId): State {
    s.(tasks := s.tasks - {k}, gate := Finish(s.gate, k))
  }

  predicate LockFree(s: State) {
    forall k <- s.tasks :: !s.tasks[k].pc.Creating?
  }

  predicate HasAppTask(s: State, r: RequestId) {
    exists k <- s.tasks :: s.tasks[k].app && s.tasks[k].request == r
  }

  // ---- the stretches of code ----

  // From the last await of _handle_admitted_start_session_message to asyncio.wait.
  function SubmitStep(s: State, k: TaskId, r: RequestId, input: Input, save: Save): State {
    var spawn := (s: State) => s.(tasks := s.tasks[k := Task(true, r, input, Queued)], gate := Spawn(s.gate, k));
    if HasAppTask(s, r) then s
    else if HasRecord(s.mem, r) then spawn(s)
    else if Blocks(s.mem.creation) then s
    else
      var mem := s.mem.(creation := Some(Creation(r, input, CreationPreparing)));
      var disk := Write(s.disk, mem, save);
      if save == Saved then spawn(s.(mem := mem, disk := disk))
      else s.(mem := mem.(creation := Some(Creation(r, input, CreationFailed))), disk := disk)
  }

  // The `except Exception` around start_real_provider_thread.  The app handler rewrites
  // the status of a record that already exists; the Telegram handler only saves.
  ghost function Raised(s: State, k: TaskId, save: Save): State
    requires k in s.tasks
  {
    var task := s.tasks[k];
    if !task.app then
      Ended(s.(disk := if HasRecord(s.mem, task.request) then Write(s.disk, s.mem, save) else s.disk), k)
    else if HasRecord(s.mem, task.request) then
      var mem := WithStatus(s.mem, RecordOf(s.mem, task.request), Failed);
      Ended(s.(mem := mem, disk := Write(s.disk, mem, save)), k)
    else if s.mem.creation.Some? && s.mem.creation.value.request == task.request then
      var mem := s.mem.(creation := Some(s.mem.creation.value.(status := CreationUnknown)));
      Ended(s.(mem := mem, disk := Write(s.disk, mem, save)), k)
    else Ended(s, k)
  }

  // start_real_provider_thread has returned: the lock and the nested admission are
  // released, and the app handler drops the creation-only record.
  function Obtained(s: State, k: TaskId, t: ThreadId): State
    requires k in s.tasks
  {
    var task := s.tasks[k];
    At(s.(gate := Release(s.gate, Nested(k)),
          mem := if task.app then ClearCreation(s.mem, task.request) else s.mem), k, HasThread(t))
  }

  ghost function BeginStep(s: State, k: TaskId, save: Save): State
    requires k in s.tasks
  {
    match Admit(s.gate, Nested(k))
    case None => Raised(s, k, save)
    case Some(g) => At(s.(gate := g), k, WaitingLock)
  }

  ghost function AcquireStep(s: State, k: TaskId, save: Save): State
    requires k in s.tasks
  {
    var task := s.tasks[k];
    if HasRecord(s.mem, task.request) then
      var t := RecordOf(s.mem, task.request);
      if s.mem.threads[t].record.value.input != task.input
      then Raised(s.(gate := Release(s.gate, Nested(k))), k, save)
      else Obtained(s, k, t)
    else At(s.(starts := s.starts + [task.request]), k, Creating)
  }

  function NewRecord(task: Task): Record {
    Record(task.request, task.input, Pending, None)
  }

  ghost function CreateStep(s: State, k: TaskId, result: CreateResult, save: Save, save2: Save): State
    requires k in s.tasks
  {
    var task := s.tasks[k];
    var released := s.(gate := Release(s.gate, Nested(k)));
    match result
    case Created(t) =>
      var mem := s.mem.(threads := s.mem.threads[t := Thread(false, Some(NewRecord(task)))]);
      var disk := Write(s.disk, mem, save);
      if save == Saved then Obtained(s.(mem := mem, disk := disk), k, t)
      else Raised(released.(mem := mem, disk := disk), k, save2)
    case CreateError => Raised(released, k, save2)
    case CreateCancelled => Ended(released, k)
  }

  // The entry a task works on has been dropped from the list.  Whatever it goes on to note in
  // the lost record, validate_provider_thread_target rejects its delivery before the send.
  predicate Detached(s: State, k: TaskId)
    requires k in s.tasks && PastScan(s.tasks[k].pc)
  {
    !Holds(s.mem, s.tasks[k].pc.t, s.tasks[k].request)
  }

  predicate PastScan(pc: Pc) {
    pc.HasThread? || pc.BeforeSend? || pc.InSend?
  }

  function DetachedEnd(s: State, k: TaskId, save: Save): State {
    Ended(s.(disk := Write(s.disk, s.mem, save)), k)
  }

  function EnterSendStep(s: State, k: TaskId, save: Save): State
    requires k in s.tasks && s.tasks[k].pc.HasThread?
  {
    var t := s.tasks[k].pc.t;
    if Detached(s, k) then DetachedEnd(s, k, save)
    else match StatusOf(s.mem, t)
         case Sent => Ended(s.(disk := Write(s.disk, s.mem, save)), k)
         case Preparing | Sending | Unknown => Ended(s, k)
         case Pending | Failed =>
           var mem := WithStatus(s.mem, t, Preparing);
           var disk := Write(s.disk, mem, save);
           if save == Saved then At(s.(mem := mem, disk := disk), k, BeforeSend(t))
           else Ended(s.(mem := WithStatus(s.mem, t, Pending), disk := disk), k)
  }

  function Settle(s: State, k: TaskId, t: ThreadId, status: Status, save: Save): State
    requires t in s.mem.threads && s.mem.threads[t].record.Some?
  {
    var mem := WithStatus(s.mem, t, status);
    Ended(s.(mem := mem, disk := Write(s.disk, mem, save)), k)
  }

  function NewSend(r: RequestId, t: ThreadId): Send {
    Send(r, t, InFlight(None), false)
  }

  function PrepareStep(s: State, k: TaskId, outcome: PrepareResult, save: Save, save2: Save): State
    requires k in s.tasks && s.tasks[k].pc.BeforeSend?
  {
    var t := s.tasks[k].pc.t;
    if Detached(s, k) then DetachedEnd(s, k, save2)
    else if outcome.Interrupted? then Settle(s, k, t, Unknown, save2)
    else if outcome.RejectedEarly? || s.mem.threads[t].archived then Settle(s, k, t, Failed, save2)
    else
      var mem := WithStatus(s.mem, t, Sending);
      var disk := Write(s.disk, mem, save);
      if save == Saved then
        At(s.(mem := mem, disk := disk, sends := s.sends + [NewSend(s.tasks[k].request, t)]),
           k, InSend(t, |s.sends|))
      else Settle(s.(mem := mem, disk := disk), k, t, Failed, save2)
  }

  function SendStep(s: State, k: TaskId, result: SendResult, save: Save): State
    requires k in s.tasks && s.tasks[k].pc.InSend? && s.tasks[k].pc.i < |s.sends|
  {
    var pc := s.tasks[k].pc;
    var status := match result
                  case SendAccepted => Sent
                  case SendRejected => Failed
                  case SendRaised => Unknown;
    var s1 := s.(sends := s.sends[pc.i := Concluded(s.sends[pc.i], result)]);
    if Detached(s, k) then DetachedEnd(s1, k, save) else Settle(s1, k, pc.t, status, save)
  }

  // The call ends.  Its own answer counts; without one, what a receipt has told.
  function Concluded(send: Send, result: SendResult): Send {
    if result.SendAccepted? then send.(delivery := Accepted)
    else if !send.delivery.InFlight? then send
    else if send.delivery.told == Some(VerdictSent) then send.(delivery := Accepted)
    else if result.SendRejected? || send.delivery.told == Some(VerdictFailed) then send.(delivery := Rejected)
    else send.(delivery := Lost)
  }

  // A receipt for the present try of a call, or a late one for a call whose outcome is open.
  // That something was accepted is never taken back.
  function Told(send: Send, verdict: Verdict): Send {
    var delivery :=
      match send.delivery
      case InFlight(told) => InFlight(if told == Some(VerdictSent) then told else Some(verdict))
      case Lost => if verdict.VerdictSent? then Accepted else Rejected
      case _ => send.delivery;
    send.(delivery := delivery, confirmed := send.confirmed || verdict.VerdictSent?)
  }

  // Another try within the call: what was told of the last one no longer counts.
  function Untold(send: Send): Send {
    if send.delivery == InFlight(Some(VerdictFailed)) then send.(delivery := InFlight(None)) else send
  }

  // record_delivery_receipt for a first message.
  function ReceiptStep(s: State, t: ThreadId, call: nat, verdict: Verdict, matches: bool, save: Save): State
    requires t in s.mem.threads && s.mem.threads[t].record.Some? && call < |s.sends|
  {
    var mem := WithReceipt(s.mem, t, Some(Receipt(verdict, call, matches)));
    s.(mem := mem, disk := Write(s.disk, mem, save), sends := s.sends[call := Told(s.sends[call], verdict)])
  }

  // Whether record_delivery_receipt would clear a receipt on behalf of this task: it leaves
  // archived threads alone, and those that are no longer in the list.
  predicate Clears(s: State, k: TaskId)
    requires k in s.tasks && PastScan(s.tasks[k].pc)
  {
    var t := s.tasks[k].pc.t;
    !Detached(s, k) && !s.mem.threads[t].archived && s.mem.threads[t].record.value.receipt.Some?
  }

  // Within message_hooks.send, before the provider is asked again.  When the receipt cannot be
  // cleared durably there is no further try.
  function TryStep(s: State, k: TaskId, save: Save): State
    requires k in s.tasks && s.tasks[k].pc.InSend? && s.tasks[k].pc.i < |s.sends|
  {
    var pc := s.tasks[k].pc;
    var tries := s.sends[pc.i := Untold(s.sends[pc.i])];
    if !Clears(s, k) then s.(sends := tries)
    else
      var mem := WithReceipt(s.mem, pc.t, None);
      s.(mem := mem, disk := Write(s.disk, mem, save), sends := if save == Saved then tries else s.sends)
  }

  // Whether _handle_recheck_session_send takes the stored receipt for the outcome.
  predicate Rechecks(th: Thread) {
    && !th.archived && th.record.Some?
    && th.record.value.receipt.Some? && th.record.value.receipt.value.matches
    && th.record.value.status !in {Pending, Preparing, Sending}
  }

  // _handle_recheck_session_send for a first message.
  function RecheckStep(s: State, t: ThreadId, save: Save): State
    requires t in s.mem.threads && s.mem.threads[t].record.Some?
  {
    if !Rechecks(s.mem.threads[t]) then s
    else
      var verdict := s.mem.threads[t].record.value.receipt.value.verdict;
      var mem := WithStatus(s.mem, t, if verdict.VerdictSent? then Sent else Failed);
      s.(mem := mem, disk := Write(s.disk, mem, save))
  }

  // The entry t is bound to another provider id, or back to the one its receipt names.
  function ReboundStore(s: Store, t: ThreadId, matches: bool): Store
    requires t in s.threads
  {
    if s.threads[t].record.None? || s.threads[t].record.value.receipt.None? then s
    else WithReceipt(s, t, Some(s.threads[t].record.value.receipt.value.(matches := matches)))
  }

  // What is left of a store after reconciliation: some of the entries, with their records.
  predicate Thinned(a: Store, b: Store) {
    b.creation == a.creation && forall t <- b.threads :: t in a.threads && b.threads[t].record == a.threads[t].record
  }

  // The calls that a crash cuts off.
  function CutOff(sends: seq<Send>): (out: seq<Send>)
    ensures |out| == |sends|
    ensures forall i :: 0 <= i < |sends| ==> out[i] == Concluded(sends[i], SendRaised)
  {
    seq(|sends|, i requires 0 <= i < |sends| => Concluded(sends[i], SendRaised))
  }

  // ---- restart: restore_send_recoveries ----

  function RestoredThread(th: Thread): Thread {
    if th.archived || th.record.None? then th
    else match th.record.value.status
         case Pending | Preparing => th.(record := Some(th.record.value.(status := Failed)))
         case Sending => th.(record := Some(th.record.value.(status := Unknown)))
         case _ => th
  }

  function RestoredCreation(s: Store): Option<Creation> {
    if s.creation.None? || HasRecord(s, s.creation.value.request) then None
    else if s.creation.value.status == CreationPreparing
    then Some(s.creation.value.(status := CreationUnknown))
    else s.creation
  }

  function Restored(s: Store): Store {
    Store(map t | t in s.threads :: RestoredThread(s.threads[t]), RestoredCreation(s))
  }

  // A disk that restart saved none, some or all of its repairs to.
  ghost predicate PartlyRestored(before: Store, after: Store) {
    && after.threads.Keys == before.threads.Keys
    && (forall t <- before.threads ::
          after.threads[t] == before.threads[t] || after.threads[t] == RestoredThread(before.threads[t]))
    && (after.creation == before.creation || after.creation == RestoredCreation(before))
  }

  // ---- events ----

  predicate FreshTask(s: State, k: TaskId) {
    k !in s.tasks && k !in s.gate.tasks && Nested(k) !in s.gate.open
  }

  // An entry that has never been in the list.
  predicate FreshEntry(s: State, t: ThreadId) {
    && t !in s.mem.threads
    && (forall k <- s.tasks :: PastScan(s.tasks[k].pc) ==> s.tasks[k].pc.t != t)
    && (forall i :: 0 <= i < |s.sends| ==> s.sends[i].thread != t)
  }

  ghost predicate Enabled(s: State, e: Event) {
    match e
    case Submit(h, k, r, _, _) => Handler(h) in s.gate.open && FreshTask(s, k) && r.App?
    case TelegramNew(k, r, _) => FreshTask(s, k) && r.Telegram?
    case TelegramResume(k, t) => FreshTask(s, k) && t in s.mem.threads && s.mem.threads[t].record.Some?
    case Begin(k, _) => k in s.tasks && s.tasks[k].pc.Queued?
    case Acquire(k, _) => k in s.tasks && s.tasks[k].pc.WaitingLock? && LockFree(s)
    case CreateDone(k, result, _, _) =>
      && k in s.tasks && s.tasks[k].pc.Creating?
      && (result.Created? ==> result.t in s.mem.threads || FreshEntry(s, result.t))
    case EnterSend(k, _) => k in s.tasks && s.tasks[k].pc.HasThread?
    case PrepareDone(k, _, _, _) => k in s.tasks && s.tasks[k].pc.BeforeSend?
    case SendDone(k, _, _) => k in s.tasks && s.tasks[k].pc.InSend? && s.tasks[k].pc.i < |s.sends|
    case CancelIdle(k) =>
      k in s.tasks && (s.tasks[k].pc.Queued? || s.tasks[k].pc.WaitingLock? || s.tasks[k].pc.HasThread?)
    case ReceiptStored(t, call, _, _, _) =>
      && t in s.mem.threads && s.mem.threads[t].record.Some? && !s.mem.threads[t].archived
      && call < |s.sends| && s.sends[call].thread == t && s.sends[call].request == s.mem.threads[t].record.value.request
    case TryAgain(k, _) => k in s.tasks && s.tasks[k].pc.InSend? && s.tasks[k].pc.i < |s.sends|
    case Recheck(t, _) => t in s.mem.threads && s.mem.threads[t].record.Some?
    case Rebound(t, _) => t in s.mem.threads
    case SetArchived(t, _) => t in s.mem.threads
    case RegisterThread(t) => FreshEntry(s, t)
    case ListPass(kept) => Thinned(s.mem, kept)
    case Checkpoint(_) => true
    case Other(ge) => GateEnabled(s.gate, ge) && ForeignTo(s, ge)
    case Crash(survivor) => PartlyRestored(s.disk, survivor)
  }

  // Gate traffic of other handlers and of other background tasks.
  predicate ForeignTo(s: State, ge: GateEvent) {
    match ge
    case Enter(a) => a.Handler? || a.task !in s.tasks
    case Leave(a) => a.Handler? || a.task !in s.tasks
    case Start(_, t) => t !in s.tasks
    case End(t) => t !in s.tasks
    case _ => true
  }

  ghost function Step(s: State, e: Event): State
    requires Enabled(s, e)
  {
    match e
    case Submit(_, k, r, input, save) => SubmitStep(s, k, r, input, save)
    case TelegramNew(k, r, text) => s.(tasks := s.tasks[k := Task(false, r, Input(text, []), Queued)])
    case TelegramResume(k, t) =>
      var record := s.mem.threads[t].record.value;
      s.(tasks := s.tasks[k := Task(false, record.request, Input(record.input.text, []), Queued)])
    case Begin(k, save) => BeginStep(s, k, save)
    case Acquire(k, save) => AcquireStep(s, k, save)
    case CreateDone(k, result, save, save2) => CreateStep(s, k, result, save, save2)
    case EnterSend(k, save) => EnterSendStep(s, k, save)
    case PrepareDone(k, outcome, save, save2) => PrepareStep(s, k, outcome, save, save2)
    case SendDone(k, result, save) => SendStep(s, k, result, save)
    case CancelIdle(k) =>
      Ended(if s.tasks[k].pc.WaitingLock? then s.(gate := Release(s.gate, Nested(k))) else s, k)
    case ReceiptStored(t, call, verdict, matches, save) => ReceiptStep(s, t, call, verdict, matches, save)
    case TryAgain(k, save) => TryStep(s, k, save)
    case Recheck(t, save) => RecheckStep(s, t, save)
    case Rebound(t, matches) => s.(mem := ReboundStore(s.mem, t, matches))
    case SetArchived(t, b) => s.(mem := s.mem.(threads := s.mem.threads[t := s.mem.threads[t].(archived := b)]))
    case RegisterThread(t) => s.(mem := s.mem.(threads := s.mem.threads[t := Thread(false, None)]))
    case ListPass(kept) => s.(mem := kept)
    case Checkpoint(save) => s.(disk := Write(s.disk, s.mem, save))
    case Other(ge) => s.(gate := GateNext(s.gate, ge))
    case Crash(survivor) =>
      State(Gate(s.gate.now, 0, 0, {}, {}, {}), Restored(s.disk), survivor, map[], s.starts, CutOff(s.sends))
  }

  ghost predicate ValidRun(s: State, es: seq<Event>)
    decreases |es|
  {
    es == [] || (Enabled(s, es[0]) && ValidRun(Step(s, es[0]), es[1..]))
  }

  ghost function After(s: State, es: seq<Event>): State
    requires ValidRun(s, es)
    decreases |es|
  {
    if es == [] then s else After(Step(s, es[0]), es[1..])
  }
}
