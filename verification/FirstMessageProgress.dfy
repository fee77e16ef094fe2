/**
 What the records of a first message say is true, and what was not sent can still be sent.

 Main results: SentIsTrue, UnsentCanArrive and its cases, UncertainIsNotRepeated,
 RefusedOnlyForACreation.
*/
module FirstMessageProgress {
  import opened Prelude
  import opened UpdateLease
  import opened FirstMessage
  import opened FirstMessageProofs
  import opened FirstMessageLimits

  // ---- a record that says "sent" ----

  // The call was for this entry and request, and it or a receipt said that it was accepted.
  predicate Vouches(send: Send, t: ThreadId, r: RequestId) {
    send.thread == t && send.request == r && (send.delivery == Accepted || send.confirmed)
  }

  predicate ReceiptTrue(receipt: Receipt, t: ThreadId, r: RequestId, sends: seq<Send>) {
    && receipt.call < |sends| && sends[receipt.call].thread == t && sends[receipt.call].request == r
    && (receipt.verdict.VerdictSent? ==> sends[receipt.call].confirmed)
  }

  predicate RecordTrue(record: Record, t: ThreadId, sends: seq<Send>) {
    && (record.status == Sent ==> exists i :: 0 <= i < |sends| && Vouches(sends[i], t, record.request))
    && (record.receipt.Some? ==> ReceiptTrue(record.receipt.value, t, record.request, sends))
  }

  predicate StoreTrue(s: Store, sends: seq<Send>) {
    forall t <- s.threads :: s.threads[t].record.Some? ==> RecordTrue(s.threads[t].record.value, t, sends)
  }

  predicate CallTrue(task: Task, sends: seq<Send>) {
    task.pc.InSend? ==>
      task.pc.i < |sends| && sends[task.pc.i].thread == task.pc.t && sends[task.pc.i].request == task.request
  }

  predicate Truthful(s: State) {
    && StoreTrue(s.mem, s.sends) && StoreTrue(s.disk, s.sends)
    && forall k <- s.tasks :: CallTrue(s.tasks[k], s.sends)
  }

  // The log only grows, and nothing that was accepted or confirmed is taken back.
  predicate Grows(sends: seq<Send>, sends': seq<Send>) {
    && |sends| <= |sends'|
    && forall i :: 0 <= i < |sends| ==>
      && SameCall(sends'[i], sends[i]) && (sends[i].confirmed ==> sends'[i].confirmed)
      && (sends[i].delivery == Accepted ==> sends'[i].delivery == Accepted)
  }

  lemma GrownIsTrue(s: Store, sends: seq<Send>, sends': seq<Send>)
    requires StoreTrue(s, sends) && Grows(sends, sends')
    ensures StoreTrue(s, sends')
  {
    forall t <- s.threads | s.threads[t].record.Some? ensures RecordTrue(s.threads[t].record.value, t, sends') {
      var record := s.threads[t].record.value;
      assert RecordTrue(record, t, sends);
      if record.status == Sent {
        var i :| 0 <= i < |sends| && Vouches(sends[i], t, record.request);
        assert Vouches(sends'[i], t, record.request);
      }
    }
  }

  lemma StatusIsTrue(s: Store, t: ThreadId, st: Status, sends: seq<Send>)
    requires StoreTrue(s, sends) && t in s.threads && s.threads[t].record.Some?
    requires st == Sent ==> exists i :: 0 <= i < |sends| && Vouches(sends[i], t, s.threads[t].record.value.request)
    ensures StoreTrue(WithStatus(s, t, st), sends)
  {
    assert RecordTrue(s.threads[t].record.value, t, sends);
  }

  lemma RaisedIsTruthful(s: State, k: TaskId, save: Save)
    requires Truthful(s) && k in s.tasks
    ensures Truthful(Raised(s, k, save))
  {
    if s.tasks[k].app && HasRecord(s.mem, s.tasks[k].request) {
      StatusIsTrue(s.mem, RecordOf(s.mem, s.tasks[k].request), Failed, s.sends);
    }
  }

  lemma ScanIsTruthful(s: State, k: TaskId, save: Save)
    requires Truthful(s) && k in s.tasks
    ensures Truthful(BeginStep(s, k, save)) && Truthful(AcquireStep(s, k, save))
  {
    RaisedIsTruthful(s, k, save);
    RaisedIsTruthful(s.(gate := Release(s.gate, Nested(k))), k, save);
  }

  lemma CreateIsTruthful(s: State, k: TaskId, result: CreateResult, save: Save, save2: Save)
    requires Truthful(s) && k in s.tasks
    ensures Truthful(CreateStep(s, k, result, save, save2))
  {
    var released := s.(gate := Release(s.gate, Nested(k)));
    match result
    case Created(t) =>
      var mem := Inserted(s.mem, t, NewRecord(s.tasks[k]));
      assert StoreTrue(mem, s.sends);
      if save != Saved { RaisedIsTruthful(released.(mem := mem, disk := Write(s.disk, mem, save)), k, save2); }
    case CreateError => RaisedIsTruthful(released, k, save2);
    case CreateCancelled =>
  }

  lemma SettleIsTruthful(s: State, k: TaskId, t: ThreadId, st: Status, save: Save)
    requires Truthful(s) && k in s.tasks && t in s.mem.threads && s.mem.threads[t].record.Some?
    requires var r := s.mem.threads[t].record.value.request;
      st == Sent ==> exists i :: 0 <= i < |s.sends| && Vouches(s.sends[i], t, r)
    ensures Truthful(Settle(s, k, t, st, save))
  {
    StatusIsTrue(s.mem, t, st, s.sends);
  }

  lemma EntryIsTruthful(s: State, k: TaskId, save: Save)
    requires Truthful(s) && k in s.tasks && s.tasks[k].pc.HasThread?
    ensures Truthful(EnterSendStep(s, k, save))
  {
    if !Detached(s, k) && StatusOf(s.mem, s.tasks[k].pc.t) in {Pending, Failed} {
      StatusIsTrue(s.mem, s.tasks[k].pc.t, Preparing, s.sends);
      StatusIsTrue(s.mem, s.tasks[k].pc.t, Pending, s.sends);
    }
  }

  // A call is logged; until it ends nothing says that it was accepted.
  lemma CallIsTruthful(s: State, k: TaskId)
    requires Truthful(s) && k in s.tasks && s.tasks[k].pc.BeforeSend? && !Detached(s, k)
    requires !s.mem.threads[s.tasks[k].pc.t].archived
    ensures Truthful(PrepareStep(s, k, Proceed, Saved, Saved))
  {
    var t := s.tasks[k].pc.t;
    var s' := PrepareStep(s, k, Proceed, Saved, Saved);
    StatusIsTrue(s.mem, t, Sending, s.sends);
    GrownIsTrue(WithStatus(s.mem, t, Sending), s.sends, s'.sends);
    forall l <- s'.tasks ensures CallTrue(s'.tasks[l], s'.sends) {
      assert l != k ==> CallTrue(s.tasks[l], s.sends);
    }
  }

  // A delivery that ends without a call never makes a record say "sent".
  lemma PrepareIsTruthful(s: State, k: TaskId, outcome: PrepareResult, save: Save, save2: Save)
    requires Truthful(s) && k in s.tasks && s.tasks[k].pc.BeforeSend?
    ensures Truthful(PrepareStep(s, k, outcome, save, save2))
  {
    var t := s.tasks[k].pc.t;
    if Detached(s, k) {
    } else if outcome.Proceed? && !s.mem.threads[t].archived && save == Saved {
      CallIsTruthful(s, k);
    } else {
      StatusIsTrue(s.mem, t, Sending, s.sends);
      StatusIsTrue(s.mem, t, Unknown, s.sends);
      StatusIsTrue(s.mem, t, Failed, s.sends);
      StatusIsTrue(WithStatus(s.mem, t, Sending), t, Failed, s.sends);
    }
  }

  lemma OneCallIsTruthful(s: State, i: nat, send: Send)
    requires Truthful(s) && i < |s.sends| && Grows(s.sends, s.sends[i := send])
    ensures Truthful(s.(sends := s.sends[i := send]))
  {
    GrownIsTrue(s.mem, s.sends, s.sends[i := send]);
    GrownIsTrue(s.disk, s.sends, s.sends[i := send]);
  }

  // Only an accepted call makes its task note "sent".
  lemma SendIsTruthful(s: State, k: TaskId, result: SendResult, save: Save)
    requires Truthful(s) && k in s.tasks && s.tasks[k].pc.InSend? && s.tasks[k].pc.i < |s.sends|
    ensures Truthful(SendStep(s, k, result, save))
  {
    var t, i := s.tasks[k].pc.t, s.tasks[k].pc.i;
    var s1 := s.(sends := s.sends[i := Concluded(s.sends[i], result)]);
    assert CallTrue(s.tasks[k], s.sends);
    OneCallIsTruthful(s, i, Concluded(s.sends[i], result));
    if !Detached(s, k) {
      var st := match result case SendAccepted => Sent case SendRejected => Failed case SendRaised => Unknown;
      assert result.SendAccepted? ==> Vouches(s1.sends[i], t, s.tasks[k].request);
      SettleIsTruthful(s1, k, t, st, save);
    }
  }

  lemma ReceiptIsTruthful(s: State, t: ThreadId, receipt: Option<Receipt>, save: Save)
    requires Truthful(s) && t in s.mem.threads && s.mem.threads[t].record.Some?
    requires receipt.Some? ==> ReceiptTrue(receipt.value, t, s.mem.threads[t].record.value.request, s.sends)
    ensures var mem := WithReceipt(s.mem, t, receipt); Truthful(s.(mem := mem, disk := Write(s.disk, mem, save)))
  {
    assert RecordTrue(s.mem.threads[t].record.value, t, s.sends);
  }

  lemma ToldIsTruthful(s: State, e: Event)
    requires Truthful(s) && Enabled(s, e) && e.ReceiptStored?
    ensures Truthful(Step(s, e))
  {
    OneCallIsTruthful(s, e.call, Told(s.sends[e.call], e.verdict));
    var s1 := s.(sends := s.sends[e.call := Told(s.sends[e.call], e.verdict)]);
    ReceiptIsTruthful(s1, e.t, Some(Receipt(e.verdict, e.call, e.matches)), e.save);
  }

  lemma TryIsTruthful(s: State, k: TaskId, save: Save)
    requires Truthful(s) && Enabled(s, TryAgain(k, save))
    ensures Truthful(TryStep(s, k, save))
  {
    var i := s.tasks[k].pc.i;
    if Clears(s, k) {
      ReceiptIsTruthful(s, s.tasks[k].pc.t, None, save);
      var mem := WithReceipt(s.mem, s.tasks[k].pc.t, None);
      if save == Saved { OneCallIsTruthful(s.(mem := mem, disk := mem), i, Untold(s.sends[i])); }
    } else {
      OneCallIsTruthful(s, i, Untold(s.sends[i]));
    }
  }

  lemma RecheckIsTruthful(s: State, t: ThreadId, save: Save)
    requires Truthful(s) && t in s.mem.threads && s.mem.threads[t].record.Some?
    ensures Truthful(RecheckStep(s, t, save))
  {
    if Rechecks(s.mem.threads[t]) {
      var record := s.mem.threads[t].record.value;
      assert RecordTrue(record, t, s.sends);
      assert record.receipt.value.verdict.VerdictSent? ==>
        Vouches(s.sends[record.receipt.value.call], t, record.request);
      StatusIsTrue(s.mem, t, StatusOf(RecheckStep(s, t, save).mem, t), s.sends);
    }
  }

  lemma RebindIsTruthful(s: State, t: ThreadId, matches: bool)
    requires Truthful(s) && t in s.mem.threads
    ensures Truthful(Step(s, Rebound(t, matches)))
  {
    if s.mem.threads[t].record.Some? && s.mem.threads[t].record.value.receipt.Some? {
      assert RecordTrue(s.mem.threads[t].record.value, t, s.sends);
      var receipt := s.mem.threads[t].record.value.receipt.value;
      ReceiptIsTruthful(s, t, Some(receipt.(matches := matches)), NotWritten);
    }
  }

  lemma CrashIsTruthful(s: State, survivor: Store)
    requires Truthful(s) && PartlyRestored(s.disk, survivor)
    ensures Truthful(Step(s, Crash(survivor)))
  {
    GrownIsTrue(s.disk, s.sends, CutOff(s.sends));
  }

  lemma TaskStepIsTruthful(s: State, e: Event)
    requires Truthful(s) && Enabled(s, e) && OfTask(e)
    ensures Truthful(Step(s, e))
  {
    match e
    case Begin(k, save) => ScanIsTruthful(s, k, save);
    case Acquire(k, save) => ScanIsTruthful(s, k, save);
    case CreateDone(k, result, save, save2) => CreateIsTruthful(s, k, result, save, save2);
    case EnterSend(k, save) => EntryIsTruthful(s, k, save);
    case PrepareDone(k, outcome, save, save2) => PrepareIsTruthful(s, k, outcome, save, save2);
    case SendDone(k, result, save) => SendIsTruthful(s, k, result, save);
    case CancelIdle(_) =>
  }

  lemma ListStepIsTruthful(s: State, e: Event)
    requires Truthful(s) && Enabled(s, e)
    requires e.SetArchived? || e.RegisterThread? || e.ListPass? || e.Checkpoint? || e.Other?
    ensures Truthful(Step(s, e))
  {
    if e.ListPass? {
      forall t <- e.kept.threads | e.kept.threads[t].record.Some?
        ensures RecordTrue(e.kept.threads[t].record.value, t, s.sends)
      {
        assert RecordTrue(s.mem.threads[t].record.value, t, s.sends);
      }
    }
  }

  lemma StepIsTruthful(s: State, e: Event)
    requires Truthful(s) && Enabled(s, e)
    ensures Truthful(Step(s, e))
  {
    if OfTask(e) {
      TaskStepIsTruthful(s, e);
    } else {
      match e
      case Submit(_, _, _, _, _) | TelegramNew(_, _, _) | TelegramResume(_, _) =>
      case ReceiptStored(_, _, _, _, _) => ToldIsTruthful(s, e);
      case TryAgain(k, save) => TryIsTruthful(s, k, save);
      case Recheck(t, save) => RecheckIsTruthful(s, t, save);
      case Rebound(t, matches) => RebindIsTruthful(s, t, matches);
      case Crash(survivor) => CrashIsTruthful(s, survivor);
      case _ => ListStepIsTruthful(s, e);
    }
  }

  lemma {:induction false} RunIsTruthful(s: State, es: seq<Event>)
    requires Truthful(s) && ValidRun(s, es)
    ensures Truthful(After(s, es))
    decreases |es|
  {
    if es != [] {
      StepIsTruthful(s, es[0]);
      RunIsTruthful(Step(s, es[0]), es[1..]);
    }
  }

  // Over every run, with nothing assumed: a record that says "sent", in memory or on disk, has
  // a call of its own in the log that was accepted, or that a receipt said was accepted.
  lemma SentIsTrue(es: seq<Event>, s: Store, t: ThreadId)
    requires ValidRun(Init, es) && s in {After(Init, es).mem, After(Init, es).disk}
    requires t in s.threads && s.threads[t].record.Some? && StatusOf(s, t) == Sent
    ensures exists send <- After(Init, es).sends :: Vouches(send, t, s.threads[t].record.value.request)
  {
    RunIsTruthful(Init, es);
    assert RecordTrue(s.threads[t].record.value, t, After(Init, es).sends);
  }

  // ---- what was not sent can still be sent ----

  // The record says "sent", and a call made since the first n was accepted.
  predicate HasArrived(s: State, t: ThreadId, r: RequestId, n: nat) {
    && Holds(s.mem, t, r) && StatusOf(s.mem, t) == Sent
    && n < |s.sends| && s.sends[n] == NewSend(r, t).(delivery := Accepted)
  }

  // In some continuation, in which everything is as assumed, the message arrives.
  ghost predicate CanArrive(s: State, t: ThreadId, r: RequestId, inputs: RequestId -> Input) {
    Leads(s, inputs, (s': State) => HasArrived(s', t, r, |s.sends|))
  }

  lemma ArrivesLater(s: State, s': State, t: ThreadId, r: RequestId, inputs: RequestId -> Input)
    requires Precedes(s, s', inputs) && |s'.sends| == |s.sends| && CanArrive(s', t, r, inputs)
    ensures CanArrive(s, t, r, inputs)
  {
    assert ((x: State) => HasArrived(x, t, r, |s.sends|)) == ((x: State) => HasArrived(x, t, r, |s'.sends|));
  }

  lemma DoorOpens(s: State, k: TaskId, t: ThreadId, r: RequestId, inputs: RequestId -> Input)
    requires AtDoor(s, k, t, r)
    ensures CanArrive(s, t, r, inputs)
  {
    Goes(s, EnterSend(k, Saved), inputs);
    var s1 := Step(s, EnterSend(k, Saved));
    assert s1.sends == s.sends && Holds(s1.mem, t, r) && s1.tasks[k].pc == BeforeSend(t);
    PreparedArrives(s1, k, t, r, inputs);
    ArrivesLater(s, s1, t, r, inputs);
  }

  lemma PreparedArrives(s: State, k: TaskId, t: ThreadId, r: RequestId, inputs: RequestId -> Input)
    requires k in s.tasks && s.tasks[k].pc == BeforeSend(t) && s.tasks[k].request == r
    requires Holds(s.mem, t, r) && !s.mem.threads[t].archived
    ensures CanArrive(s, t, r, inputs)
  {
    Goes(s, PrepareDone(k, Proceed, Saved, Saved), inputs);
    var s1 := Step(s, PrepareDone(k, Proceed, Saved, Saved));
    assert s1.sends == s.sends + [NewSend(r, t)] && s1.tasks[k].pc == InSend(t, |s.sends|) && Holds(s1.mem, t, r);
    Goes(s1, SendDone(k, SendAccepted, Saved), inputs);
    var s2 := Step(s1, SendDone(k, SendAccepted, Saved));
    assert HasArrived(s2, t, r, |s.sends|);
    LeadsNow(s2, inputs, (x: State) => HasArrived(x, t, r, |s.sends|));
  }

  // A record that is pending or failed can be delivered, whoever is at work: the app request
  // by a retry with its input, the Telegram request by a resume.
  lemma UnsentCanArrive(s: State, t: ThreadId, r: RequestId, inputs: RequestId -> Input)
    requires Inv(s, inputs) && Holds(s.mem, t, r) && StatusOf(s.mem, t) in {Pending, Failed}
    ensures CanArrive(s, t, r, inputs)
  {
    InvIsOrderly(s, inputs);
    RecordedForRetry(s, t, inputs);
    forall k <- s.tasks | DeliversForApp(s, k, r) ensures Detached(s, k) {
      UnsentIsNotDelivered(s, k, t, r, inputs);
    }
    var s', k := RecordReenters(s, t, r, inputs);
    DoorOpens(s', k, t, r, inputs);
    ArrivesLater(s, s', t, r, inputs);
  }

  lemma UnsentIsNotDelivered(s: State, k: TaskId, t: ThreadId, r: RequestId, inputs: RequestId -> Input)
    requires Inv(s, inputs) && Holds(s.mem, t, r) && StatusOf(s.mem, t) in {Pending, Failed} && DeliversForApp(s, k, r)
    ensures Detached(s, k)
  {
    assert TaskOk(s, k, inputs);
  }

  // A delivery that is turned away before the provider call, and not merely cut off, is
  // neither lost nor taken for done: the message can still arrive.
  lemma TurnedAwayCanArrive(s: State, k: TaskId, outcome: PrepareResult, save: Save, save2: Save,
                            inputs: RequestId -> Input)
    requires Inv(s, inputs) && Enabled(s, PrepareDone(k, outcome, save, save2)) && !Detached(s, k)
    requires !outcome.Interrupted? && |PrepareStep(s, k, outcome, save, save2).sends| == |s.sends|
    ensures CanArrive(PrepareStep(s, k, outcome, save, save2), s.tasks[k].pc.t, s.tasks[k].request, inputs)
  {
    PrepareKeeps(s, k, outcome, save, save2, inputs);
    UnsentCanArrive(PrepareStep(s, k, outcome, save, save2), s.tasks[k].pc.t, s.tasks[k].request, inputs);
  }

  // Nor is one whose call the provider rejected.
  lemma RejectedCanArrive(s: State, k: TaskId, save: Save, inputs: RequestId -> Input)
    requires Inv(s, inputs) && Enabled(s, SendDone(k, SendRejected, save)) && !Detached(s, k) && !KnownAccepted(s, k)
    ensures CanArrive(SendStep(s, k, SendRejected, save), s.tasks[k].pc.t, s.tasks[k].request, inputs)
  {
    SendKeeps(s, k, SendRejected, save, inputs);
    UnsentCanArrive(SendStep(s, k, SendRejected, save), s.tasks[k].pc.t, s.tasks[k].request, inputs);
  }

  // Nor one that could not note that it begins.
  lemma UnsavedEntryCanArrive(s: State, k: TaskId, save: Save, inputs: RequestId -> Input)
    requires Inv(s, inputs) && Enabled(s, EnterSend(k, save)) && !Detached(s, k) && save != Saved
    requires StatusOf(s.mem, s.tasks[k].pc.t) in {Pending, Failed}
    ensures CanArrive(EnterSendStep(s, k, save), s.tasks[k].pc.t, s.tasks[k].request, inputs)
  {
    EnterSendKeeps(s, k, save, inputs);
    UnsentCanArrive(EnterSendStep(s, k, save), s.tasks[k].pc.t, s.tasks[k].request, inputs);
  }

  // Nor one that a crash cut off before "sending" was saved.
  lemma RestartedCanArrive(s: State, survivor: Store, t: ThreadId, r: RequestId, inputs: RequestId -> Input)
    requires Inv(s, inputs) && Enabled(s, Crash(survivor)) && Holds(s.disk, t, r) && !s.disk.threads[t].archived
    requires StatusOf(s.disk, t) in {Pending, Preparing, Failed}
    ensures CanArrive(Step(s, Crash(survivor)), t, r, inputs)
  {
    CrashKeeps(s, survivor, inputs);
    UnsentCanArrive(Step(s, Crash(survivor)), t, r, inputs);
  }

  // A recheck takes the receipt at its word, either way.
  lemma RecheckTells(s: State, t: ThreadId, save: Save, inputs: RequestId -> Input)
    requires Inv(s, inputs) && Enabled(s, Recheck(t, save)) && Rechecks(s.mem.threads[t]) && ReceiptIsCurrent(s, t)
    ensures var record := s.mem.threads[t].record.value; var s' := RecheckStep(s, t, save);
      if record.receipt.value.verdict.VerdictSent? then StatusOf(s'.mem, t) == Sent
      else CanArrive(s', t, record.request, inputs)
  {
    if s.mem.threads[t].record.value.receipt.value.verdict.VerdictFailed? {
      RecheckKeeps(s, t, save, inputs);
      UnsentCanArrive(RecheckStep(s, t, save), t, s.mem.threads[t].record.value.request, inputs);
    }
  }

  // A receipt for another provider id, and one of an archived thread, settle nothing.
  lemma ForeignReceiptSettlesNothing(s: State, t: ThreadId, save: Save)
    requires Enabled(s, Recheck(t, save))
    requires var receipt := s.mem.threads[t].record.value.receipt;
      s.mem.threads[t].archived || receipt.None? || !receipt.value.matches
    ensures Step(s, Recheck(t, save)) == s
  {
  }

  // Once the receipt is cleared for another try, a recheck has nothing to go by.
  lemma ClearedReceiptSettlesNothing(s: State, k: TaskId, save: Save)
    requires Enabled(s, TryAgain(k, save)) && !Detached(s, k) && !s.mem.threads[s.tasks[k].pc.t].archived
    ensures !Rechecks(TryStep(s, k, save).mem.threads[s.tasks[k].pc.t])
  {
  }

  // A request that nobody has created yet can be created and delivered, unless another
  // creation is open.
  lemma NewMessageCanArrive(s: State, r: RequestId, inputs: RequestId -> Input)
    requires Inv(s, inputs) && !HasRecord(s.mem, r)
    requires r.App? ==> !HasAppTask(s, r) && !Blocks(s.mem.creation)
    ensures exists t :: t !in s.mem.threads && CanArrive(s, t, r, inputs)
  {
    InvIsOrderly(s, inputs);
    var s1, h := Calmed(s, inputs);
    assert forall k <- s1.tasks :: k in s.tasks && s1.tasks[k] == s.tasks[k];
    var k := UnusedTask(s1);
    var e := if r.App? then Submit(h, k, r, inputs(r), Saved) else TelegramNew(k, r, "");
    Goes(s1, e, inputs);
    var s2 := Step(s1, e);
    var t, s3 := CreationFinishes(s2, k, inputs);
    DoorOpens(s3, k, t, r, inputs);
    ArrivesLater(s, s3, t, r, inputs);
  }

  lemma CreationFinishes(s: State, k: TaskId, inputs: RequestId -> Input) returns (t: ThreadId, s': State)
    requires Free(s, k) && !HasRecord(s.mem, s.tasks[k].request)
    ensures Precedes(s, s', inputs) && s'.sends == s.sends && t !in s.mem.threads
    ensures AtDoor(s', k, t, s.tasks[k].request) && (s.tasks[k].app && Reserved(s.mem, s.tasks[k].request) ==>
      !Blocks(s'.mem.creation))
  {
    var s1 := Admitted(s, k, inputs);
    Goes(s1, Acquire(k, Saved), inputs);
    var s2 := Step(s1, Acquire(k, Saved));
    t := UnusedEntry(s2);
    var e := CreateDone(k, Created(t), Saved, Saved);
    Goes(s2, e, inputs);
    s' := Step(s2, e);
  }

  // The provider is called exactly when the entry is still listed and not archived, nothing
  // went wrong before, and "sending" was saved; and one call is made then.
  lemma CalledExactly(s: State, k: TaskId, outcome: PrepareResult, save: Save, save2: Save)
    requires Enabled(s, PrepareDone(k, outcome, save, save2))
    ensures var s' := PrepareStep(s, k, outcome, save, save2); var t := s.tasks[k].pc.t;
      if !Detached(s, k) && !s.mem.threads[t].archived && outcome.Proceed? && save == Saved
      then s'.sends == s.sends + [NewSend(s.tasks[k].request, t)] && StatusOf(s'.disk, t) == Sending
      else s'.sends == s.sends && k !in s'.tasks
  {
  }

  // A restart leaves the records of archived threads as the crash left them.
  lemma RestartLeavesArchived(s: State, survivor: Store, t: ThreadId)
    requires Enabled(s, Crash(survivor)) && t in s.disk.threads && s.disk.threads[t].archived
    ensures t in Step(s, Crash(survivor)).mem.threads
    ensures Step(s, Crash(survivor)).mem.threads[t] == s.disk.threads[t] == survivor.threads[t]
  {
  }

  // ---- what may have been sent is not sent again ----

  // What can take back that the record of t is committed: a retry with other input, a call that
  // is rejected, a "failed" gone by, a pass, a crash.
  predicate Uncommits(s: State, e: Event, t: ThreadId, r: RequestId) {
    match e
    case Acquire(k, _) =>
      && k in s.tasks && s.tasks[k].app && s.tasks[k].request == r
      && t in s.mem.threads && s.mem.threads[t].record.Some?
      && s.mem.threads[t].record.value.input != s.tasks[k].input
    case CreateDone(_, Created(u), _, _) => u == t
    case SendDone(k, SendRejected, _) => k in s.tasks && s.tasks[k].pc.InSend? && s.tasks[k].pc.t == t
    case Recheck(u, _) =>
      && u == t && t in s.mem.threads && Rechecks(s.mem.threads[t])
      && s.mem.threads[t].record.value.receipt.value.verdict.VerdictFailed?
    case ListPass(kept) => t !in kept.threads
    case Crash(_) => true
    case _ => false
  }

  predicate IsCommitted(s: State, t: ThreadId, r: RequestId) {
    Holds(s.mem, t, r) && Committed(StatusOf(s.mem, t))
  }

  predicate NoCallSince(s: State, n: nat, t: ThreadId) {
    n <= |s.sends| && forall i :: n <= i < |s.sends| ==> s.sends[i].thread != t
  }

  lemma ScanStaysCommitted(s: State, e: Event, t: ThreadId, r: RequestId, inputs: RequestId -> Input)
    requires Inv(s, inputs) && Enabled(s, e) && IsCommitted(s, t, r) && !Uncommits(s, e, t, r)
    requires e.Begin? || e.Acquire?
    ensures IsCommitted(Step(s, e), t, r) && Step(s, e).sends == s.sends
  {
    if e.Begin? {
      BeginKeeps(s, e.task, e.save, inputs);
    } else if HasRecord(s.mem, s.tasks[e.task].request) {
      var u := RecordOf(s.mem, s.tasks[e.task].request);
      assert u == t <==> s.tasks[e.task].request == r;
    }
  }

  lemma CreationStaysCommitted(s: State, k: TaskId, result: CreateResult, save: Save, save2: Save, t: ThreadId,
                               r: RequestId, inputs: RequestId -> Input)
    requires var e := CreateDone(k, result, save, save2);
      Inv(s, inputs) && Enabled(s, e) && IsCommitted(s, t, r) && !Uncommits(s, e, t, r)
    ensures var s' := CreateStep(s, k, result, save, save2); IsCommitted(s', t, r) && s'.sends == s.sends
  {
    assert TaskOk(s, k, inputs);
    var q := s.tasks[k].request;
    assert HasRecord(s.mem, r) && q != r;
    if result.Created? && save != Saved && s.tasks[k].app {
      var mem := Inserted(s.mem, result.t, NewRecord(s.tasks[k]));
      assert Holds(mem, result.t, q);
      assert RecordOf(mem, q) != t;
    }
  }

  lemma EntryStaysCommitted(s: State, k: TaskId, save: Save, t: ThreadId, r: RequestId)
    requires Enabled(s, EnterSend(k, save)) && IsCommitted(s, t, r)
    ensures IsCommitted(EnterSendStep(s, k, save), t, r) && EnterSendStep(s, k, save).sends == s.sends
  {
  }

  // Who prepares a delivery prepares that of another record.
  lemma PreparingIsNotCommitted(s: State, k: TaskId, t: ThreadId, r: RequestId, inputs: RequestId -> Input)
    requires Inv(s, inputs) && k in s.tasks && s.tasks[k].pc.BeforeSend? && !Detached(s, k) && IsCommitted(s, t, r)
    ensures s.tasks[k].pc.t != t
  {
    assert TaskOk(s, k, inputs);
  }

  lemma OtherPreparation(s: State, k: TaskId, outcome: PrepareResult, save: Save, save2: Save, t: ThreadId,
                         r: RequestId)
    requires Enabled(s, PrepareDone(k, outcome, save, save2)) && IsCommitted(s, t, r)
    requires !Detached(s, k) ==> s.tasks[k].pc.t != t
    ensures var s' := PrepareStep(s, k, outcome, save, save2); IsCommitted(s', t, r) && NoCallSince(s', |s.sends|, t)
  {
  }

  lemma SendStaysCommitted(s: State, k: TaskId, result: SendResult, save: Save, t: ThreadId, r: RequestId)
    requires var e := SendDone(k, result, save); Enabled(s, e) && IsCommitted(s, t, r) && !Uncommits(s, e, t, r)
    ensures IsCommitted(SendStep(s, k, result, save), t, r) && NoCallSince(SendStep(s, k, result, save), |s.sends|, t)
  {
  }

  lemma TaskStaysCommitted(s: State, e: Event, t: ThreadId, r: RequestId, inputs: RequestId -> Input)
    requires Inv(s, inputs) && Enabled(s, e) && IsCommitted(s, t, r) && !Uncommits(s, e, t, r) && OfTask(e)
    ensures IsCommitted(Step(s, e), t, r) && NoCallSince(Step(s, e), |s.sends|, t)
  {
    match e
    case Begin(_, _) | Acquire(_, _) => ScanStaysCommitted(s, e, t, r, inputs);
    case CreateDone(k, result, save, save2) => CreationStaysCommitted(s, k, result, save, save2, t, r, inputs);
    case EnterSend(k, save) => EntryStaysCommitted(s, k, save, t, r);
    case PrepareDone(k, outcome, save, save2) =>
      if !Detached(s, k) { PreparingIsNotCommitted(s, k, t, r, inputs); }
      OtherPreparation(s, k, outcome, save, save2, t, r);
    case SendDone(k, result, save) => SendStaysCommitted(s, k, result, save, t, r);
    case CancelIdle(_) =>
  }

  lemma StaysCommitted(s: State, e: Event, t: ThreadId, r: RequestId, inputs: RequestId -> Input)
    requires Inv(s, inputs) && Enabled(s, e) && IsCommitted(s, t, r) && !Uncommits(s, e, t, r)
    ensures IsCommitted(Step(s, e), t, r) && NoCallSince(Step(s, e), |s.sends|, t)
  {
    if OfTask(e) {
      TaskStaysCommitted(s, e, t, r, inputs);
    } else {
      OtherStaysCommitted(s, e, t, r);
    }
  }

  lemma OtherStaysCommitted(s: State, e: Event, t: ThreadId, r: RequestId)
    requires Enabled(s, e) && IsCommitted(s, t, r) && !Uncommits(s, e, t, r) && !OfTask(e)
    ensures IsCommitted(Step(s, e), t, r) && NoCallSince(Step(s, e), |s.sends|, t)
  {
  }

  ghost predicate LeavesCommitted(s: State, es: seq<Event>, t: ThreadId, r: RequestId)
    requires ValidRun(s, es)
    decreases |es|
  {
    es == [] || (!Uncommits(s, es[0], t, r) && LeavesCommitted(Step(s, es[0]), es[1..], t, r))
  }

  lemma {:induction false} CommittedIsNotSent(s: State, es: seq<Event>, t: ThreadId, r: RequestId,
                                              inputs: RequestId -> Input)
    requires Inv(s, inputs) && IsCommitted(s, t, r)
    requires ValidRun(s, es) && AssumedRun(s, es, inputs) && LeavesCommitted(s, es, t, r)
    ensures IsCommitted(After(s, es), t, r) && NoCallSince(After(s, es), |s.sends|, t)
    decreases |es|
  {
    if es != [] {
      StaysCommitted(s, es[0], t, r, inputs);
      StepKeeps(s, es[0], inputs);
      LogKeeps(s, es[0]);
      CommittedIsNotSent(Step(s, es[0]), es[1..], t, r, inputs);
      RunKeepsCalls(Step(s, es[0]), es[1..]);
    }
  }

  // No call leaves the log.
  lemma LogKeeps(s: State, e: Event)
    requires Enabled(s, e)
    ensures |s.sends| <= |Step(s, e).sends|
    ensures forall i :: 0 <= i < |s.sends| ==> SameCall(Step(s, e).sends[i], s.sends[i])
  {
  }

  lemma {:induction false} RunKeepsCalls(s: State, es: seq<Event>)
    requires ValidRun(s, es)
    ensures |s.sends| <= |After(s, es).sends|
    ensures forall i :: 0 <= i < |s.sends| ==> SameCall(After(s, es).sends[i], s.sends[i])
    decreases |es|
  {
    if es != [] {
      LogKeeps(s, es[0]);
      RunKeepsCalls(Step(s, es[0]), es[1..]);
    }
  }

  // A delivery that is cut off, or whose call ends without a word, is left as uncertain: no
  // retry sends the message again before something says what became of it.
  lemma UncertainIsNotRepeated(s: State, k: TaskId, e: Event, es: seq<Event>, inputs: RequestId -> Input)
    requires Inv(s, inputs) && Enabled(s, e) && Assumed(s, e, inputs)
    requires (e.PrepareDone? && e.outcome.Interrupted?) || (e.SendDone? && e.sendResult.SendRaised?)
    requires e.task == k && !Detached(s, k)
    requires var s' := Step(s, e); ValidRun(s', es) && AssumedRun(s', es, inputs)
    requires LeavesCommitted(Step(s, e), es, s.tasks[k].pc.t, s.tasks[k].request)
    ensures var s' := After(Step(s, e), es); var t := s.tasks[k].pc.t;
      IsCommitted(s', t, s.tasks[k].request) && NoCallSince(s', |s.sends|, t)
  {
    StepKeeps(s, e, inputs);
    CommittedIsNotSent(Step(s, e), es, s.tasks[k].pc.t, s.tasks[k].request, inputs);
  }

  // ---- reservations ----

  // The open creation was saved, or its session was asked for.
  predicate BlockJustified(s: State) {
    Blocks(s.mem.creation) ==>
      Reserved(s.disk, s.mem.creation.value.request) || s.mem.creation.value.request in s.starts
  }

  lemma SubmitIsJustified(s: State, e: Event)
    requires BlockJustified(s) && Enabled(s, e) && !OfTask(e)
    ensures BlockJustified(Step(s, e))
  {
  }

  lemma BeginIsJustified(s: State, k: TaskId, save: Save, inputs: RequestId -> Input)
    requires BlockJustified(s) && Inv(s, inputs) && Enabled(s, Begin(k, save))
    ensures BlockJustified(BeginStep(s, k, save))
  {
    BeginKeeps(s, k, save, inputs);
  }

  lemma AcquireIsJustified(s: State, k: TaskId, save: Save)
    requires BlockJustified(s) && Enabled(s, Acquire(k, save))
    ensures BlockJustified(AcquireStep(s, k, save))
  {
  }

  lemma CreationIsJustified(s: State, k: TaskId, result: CreateResult, save: Save, save2: Save,
                            inputs: RequestId -> Input)
    requires BlockJustified(s) && Inv(s, inputs) && Enabled(s, CreateDone(k, result, save, save2))
    ensures BlockJustified(CreateStep(s, k, result, save, save2))
  {
    assert TaskOk(s, k, inputs);
  }

  lemma DeliveryIsJustified(s: State, e: Event)
    requires BlockJustified(s) && Enabled(s, e) && (e.EnterSend? || e.PrepareDone? || e.SendDone? || e.CancelIdle?)
    ensures BlockJustified(Step(s, e))
  {
  }

  lemma TaskIsJustified(s: State, e: Event, inputs: RequestId -> Input)
    requires BlockJustified(s) && Inv(s, inputs) && Enabled(s, e) && OfTask(e)
    ensures BlockJustified(Step(s, e))
  {
    match e
    case Begin(k, save) => BeginIsJustified(s, k, save, inputs);
    case Acquire(k, save) => AcquireIsJustified(s, k, save);
    case CreateDone(k, result, save, save2) => CreationIsJustified(s, k, result, save, save2, inputs);
    case _ => DeliveryIsJustified(s, e);
  }

  lemma {:induction false} RunIsJustified(s: State, es: seq<Event>, inputs: RequestId -> Input)
    requires BlockJustified(s) && Inv(s, inputs) && ValidRun(s, es) && AssumedRun(s, es, inputs)
    ensures BlockJustified(After(s, es)) && Inv(After(s, es), inputs)
    decreases |es|
  {
    if es != [] {
      if OfTask(es[0]) { TaskIsJustified(s, es[0], inputs); } else { SubmitIsJustified(s, es[0]); }
      StepKeeps(s, es[0], inputs);
      RunIsJustified(Step(s, es[0]), es[1..], inputs);
    }
  }

  // A retry that can be saved is refused exactly when it has a running task, or neither a
  // record nor an open workspace; and the workspace is closed only by a creation that was saved
  // or asked for.
  lemma RefusedOnlyForACreation(es: seq<Event>, h: nat, k: TaskId, r: RequestId, input: Input,
                                inputs: RequestId -> Input)
    requires ValidRun(Init, es) && AssumedRun(Init, es, inputs)
    requires Enabled(After(Init, es), Submit(h, k, r, input, Saved))
    ensures var s := After(Init, es);
      && (k !in Step(s, Submit(h, k, r, input, Saved)).tasks <==>
            HasAppTask(s, r) || (!HasRecord(s.mem, r) && Blocks(s.mem.creation)))
      && (Blocks(s.mem.creation) ==>
            Reserved(s.disk, s.mem.creation.value.request) || s.mem.creation.value.request in s.starts)
  {
    RunIsJustified(Init, es, inputs);
  }

  // A submit that could not be saved leaves nothing behind that keeps a later one out.
  lemma UnsavedSubmitIsNoObstacle(s: State, h: nat, k: TaskId, r: RequestId, input: Input, save: Save, h': nat,
                                  k': TaskId, r': RequestId, input': Input)
    requires Enabled(s, Submit(h, k, r, input, save)) && save != Saved
    requires !HasAppTask(s, r) && !HasRecord(s.mem, r) && !Blocks(s.mem.creation)
    requires var s' := Step(s, Submit(h, k, r, input, save));
      Enabled(s', Submit(h', k', r', input', Saved)) && !HasAppTask(s', r')
    ensures k !in Step(s, Submit(h, k, r, input, save)).tasks
    ensures k' in Step(Step(s, Submit(h, k, r, input, save)), Submit(h', k', r', input', Saved)).tasks
  {
  }

  // A creation that is recorded and saved no longer keeps others out.
  lemma RecordedCreationIsNoObstacle(s: State, k: TaskId, t: ThreadId, save2: Save, inputs: RequestId -> Input)
    requires Inv(s, inputs) && Enabled(s, CreateDone(k, Created(t), Saved, save2)) && s.tasks[k].app
    ensures !Blocks(CreateStep(s, k, Created(t), Saved, save2).mem.creation)
  {
    assert TaskOk(s, k, inputs);
  }

  // Nor does one that a retry with its input finds recorded.
  lemma FoundCreationIsNoObstacle(s: State, k: TaskId, save: Save, t: ThreadId)
    requires UniqueRequests(s.mem) && Enabled(s, Acquire(k, save)) && s.tasks[k].app
    requires Holds(s.mem, t, s.tasks[k].request) && s.mem.threads[t].record.value.input == s.tasks[k].input
    ensures !Reserved(AcquireStep(s, k, save).mem, s.tasks[k].request)
    ensures k in AcquireStep(s, k, save).tasks && AcquireStep(s, k, save).tasks[k].pc == HasThread(t)
  {
    assert HasRecord(s.mem, s.tasks[k].request) && RecordOf(s.mem, s.tasks[k].request) == t;
  }

  // After a restart, only a creation without a record does.
  lemma RestartedCreationIsNoObstacle(s: State, survivor: Store)
    requires Enabled(s, Crash(survivor))
    ensures var mem := Step(s, Crash(survivor)).mem;
      Blocks(mem.creation) ==> !HasRecord(mem, mem.creation.value.request)
  {
    assert SameRecords(s.disk, Restored(s.disk));
    if Restored(s.disk).creation.Some? {
      SameHolders(s.disk, Restored(s.disk), Restored(s.disk).creation.value.request);
    }
  }
}
