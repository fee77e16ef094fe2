/**
 Where the first-message promise ends.  For each thing that `Assumed` asks of a retry, of a
 pass over the thread list, of a rejection and of a recheck, the promise survives every
 continuation if and only if it is granted; and complete runs break it where it is not.
*/
module FirstMessageLimits {
  import opened Prelude
  import opened UpdateLease
  import opened FirstMessage
  import opened FirstMessageProofs

  ghost predicate SentTwice(s: State) {
    !SendsAtMostOnce(s.sends)
  }

  ghost predicate CreatedTwice(s: State) {
    !CreatesAtMostOnce(s.starts)
  }

  // Some continuation, in which everything is as assumed, ends badly.
  ghost predicate Leads(s: State, inputs: RequestId -> Input, bad: State -> bool) {
    exists es :: ValidRun(s, es) && AssumedRun(s, es, inputs) && bad(After(s, es))
  }

  ghost predicate CanBreak(s: State, inputs: RequestId -> Input) {
    Leads(s, inputs, SentTwice) || Leads(s, inputs, CreatedTwice)
  }

  lemma LeadsNow(s: State, inputs: RequestId -> Input, bad: State -> bool)
    requires bad(s)
    ensures Leads(s, inputs, bad)
  {
    assert ValidRun(s, []) && AssumedRun(s, [], inputs) && After(s, []) == s;
  }

  lemma LeadsLater(s: State, e: Event, inputs: RequestId -> Input, bad: State -> bool)
    requires Enabled(s, e) && Assumed(s, e, inputs) && Leads(Step(s, e), inputs, bad)
    ensures Leads(s, inputs, bad)
  {
    var rest :| ValidRun(Step(s, e), rest) && AssumedRun(Step(s, e), rest, inputs) && bad(After(Step(s, e), rest));
    var es := [e] + rest;
    assert es[0] == e && es[1..] == rest;
    assert ValidRun(s, es) && AssumedRun(s, es, inputs);
    assert After(s, es) == After(Step(s, e), rest);
  }

  lemma NoneLeads(s: State, inputs: RequestId -> Input)
    requires Inv(s, inputs)
    ensures !CanBreak(s, inputs)
  {
    forall es | ValidRun(s, es) && AssumedRun(s, es, inputs)
      ensures !SentTwice(After(s, es)) && !CreatedTwice(After(s, es))
    {
      RunKeeps(s, es, inputs);
    }
  }

  // What s' leads to, s leads to.
  ghost predicate Precedes(s: State, s': State, inputs: RequestId -> Input) {
    forall bad :: Leads(s', inputs, bad) ==> Leads(s, inputs, bad)
  }

  lemma Goes(s: State, e: Event, inputs: RequestId -> Input)
    requires Enabled(s, e) && Assumed(s, e, inputs)
    ensures Precedes(s, Step(s, e), inputs)
  {
    forall bad | Leads(Step(s, e), inputs, bad) ensures Leads(s, inputs, bad) {
      LeadsLater(s, e, inputs, bad);
    }
  }

  // ---- ids nobody uses ----

  lemma UnusedTask(s: State) returns (k: TaskId)
    ensures FreshTask(s, k)
  {
    var nested := set a <- s.gate.open | a.Nested? :: a.task;
    k := UnusedId(s.tasks.Keys + s.gate.tasks + nested);
    assert forall a <- s.gate.open :: a.Nested? ==> a.task in nested;
  }

  lemma UnusedEntry(s: State) returns (t: ThreadId)
    ensures FreshEntry(s, t)
  {
    var atWork := set k <- s.tasks | PastScan(s.tasks[k].pc) :: s.tasks[k].pc.t;
    var logged := set i | 0 <= i < |s.sends| :: s.sends[i].thread;
    t := UnusedId(s.mem.threads.Keys + atWork + logged);
    forall k <- s.tasks | PastScan(s.tasks[k].pc) ensures s.tasks[k].pc.t != t {
      assert s.tasks[k].pc.t in atWork;
    }
    forall i | 0 <= i < |s.sends| ensures s.sends[i].thread != t {
      assert s.sends[i].thread in logged;
    }
  }

  // ---- the way is always open ----

  // What is needed of the tasks when a promise has already been lost.
  predicate Orderly(s: State) {
    && 0 <= s.gate.now
    && (forall l, m :: l in s.tasks && m in s.tasks && l != m ==> Apart(s.tasks[l], s.tasks[m]))
    && (forall m <- s.tasks ::
          && ((s.tasks[m].pc.WaitingLock? || s.tasks[m].pc.Creating?) <==> Nested(m) in s.gate.open)
          && (s.tasks[m].pc.InSend? ==> CallOpen(s.sends, s.tasks[m].pc.t, s.tasks[m].pc.i)))
  }

  predicate CallOpen(sends: seq<Send>, t: ThreadId, i: nat) {
    i < |sends| && sends[i].thread == t && sends[i].delivery.InFlight?
  }

  lemma InvIsOrderly(s: State, inputs: RequestId -> Input)
    requires Inv(s, inputs)
    ensures Orderly(s)
  {
    forall m <- s.tasks
      ensures (s.tasks[m].pc.WaitingLock? || s.tasks[m].pc.Creating?) <==> Nested(m) in s.gate.open
      ensures s.tasks[m].pc.InSend? ==> CallOpen(s.sends, s.tasks[m].pc.t, s.tasks[m].pc.i)
    {
      assert TaskOk(s, m, inputs);
    }
  }

  // A handler is admitted and no creation is under way.
  predicate Quiet(s: State, h: nat) {
    Handler(h) in s.gate.open && !Leased(s.gate) && LockFree(s)
  }

  // The same stores and logs, and the same tasks but for one that was creating a session.
  predicate Calmer(s: State, s': State) {
    && s'.mem == s.mem && s'.sends == s.sends && s'.starts == s.starts
    && (forall m <- s'.tasks :: m in s.tasks && s'.tasks[m] == s.tasks[m])
    && (forall m <- s.tasks :: !s.tasks[m].pc.Creating? ==> m in s'.tasks)
  }

  lemma Unlocked(s: State, inputs: RequestId -> Input) returns (s': State)
    requires Orderly(s)
    ensures LockFree(s') && Orderly(s') && Calmer(s, s') && Precedes(s, s', inputs)
  {
    if k :| k in s.tasks && s.tasks[k].pc.Creating? {
      var e := CreateDone(k, CreateCancelled, Saved, Saved);
      Goes(s, e, inputs);
      s' := Step(s, e);
      assert s'.tasks == s.tasks - {k};
      forall m <- s'.tasks ensures !s'.tasks[m].pc.Creating? {
        assert Apart(s.tasks[k], s.tasks[m]);
      }
    } else {
      s' := s;
    }
  }

  // From any state a handler can be admitted, and the lock can come free.
  lemma Calmed(s: State, inputs: RequestId -> Input) returns (s': State, h: nat)
    requires Orderly(s)
    ensures Quiet(s', h) && Orderly(s') && Calmer(s, s') && Precedes(s, s', inputs)
  {
    var s1 := Unlocked(s, inputs);
    var s2 := Step(s1, Other(CancelUpdate));
    Goes(s1, Other(CancelUpdate), inputs);
    var admitted := set a <- s2.gate.open | a.Handler? :: a.id;
    h := UnusedId(admitted);
    assert forall a <- s2.gate.open :: a.Handler? ==> a.id in admitted;
    s' := Step(s2, Other(Enter(Handler(h))));
    Goes(s2, Other(Enter(Handler(h))), inputs);
  }

  // The log as it was, as far as sends that may have arrived go.
  predicate SameLive(sends: seq<Send>, sends': seq<Send>) {
    && |sends'| == |sends|
    && forall i :: 0 <= i < |sends| ==> SameCall(sends'[i], sends[i]) && (Live(sends'[i]) <==> Live(sends[i]))
  }

  // How a task may end that is not creating a session.
  function WaysOut(task: Task, k: TaskId): Event {
    match task.pc
    case BeforeSend(_) => PrepareDone(k, Interrupted, Saved, Saved)
    case InSend(_, _) => SendDone(k, SendAccepted, Saved)
    case _ => CancelIdle(k)
  }

  // A task that is not creating a session can end; at most, it changes the status of the
  // record it was delivering.
  lemma TaskEnds(s: State, k: TaskId, inputs: RequestId -> Input) returns (s': State)
    requires Orderly(s) && k in s.tasks && !s.tasks[k].pc.Creating?
    ensures Precedes(s, s', inputs) && Orderly(s') && s'.tasks == s.tasks - {k}
    ensures s'.starts == s.starts && SameLive(s.sends, s'.sends)
    ensures forall h :: Quiet(s, h) ==> Quiet(s', h)
    ensures s'.mem == if Delivering(s.tasks[k].pc) && !Detached(s, k)
                      then WithStatus(s.mem, s.tasks[k].pc.t, if s.tasks[k].pc.InSend? then Sent else Unknown)
                      else s.mem
  {
    var e := WaysOut(s.tasks[k], k);
    Goes(s, e, inputs);
    s' := Step(s, e);
    forall m <- s'.tasks | s'.tasks[m].pc.InSend? ensures CallOpen(s'.sends, s'.tasks[m].pc.t, s'.tasks[m].pc.i) {
      assert Apart(s.tasks[k], s.tasks[m]);
    }
  }

  predicate DeliversForApp(s: State, k: TaskId, r: RequestId) {
    k in s.tasks && s.tasks[k].app && s.tasks[k].request == r && Delivering(s.tasks[k].pc)
  }

  // No app task is at work on r any more.
  lemma WithoutAppTask(s: State, r: RequestId, inputs: RequestId -> Input) returns (s': State)
    requires Orderly(s) && LockFree(s)
    ensures Precedes(s, s', inputs) && Orderly(s') && !HasAppTask(s', r)
    ensures s'.starts == s.starts && SameLive(s.sends, s'.sends)
    ensures forall h :: Quiet(s, h) ==> Quiet(s', h)
    ensures forall k <- s'.tasks :: k in s.tasks && s'.tasks[k] == s.tasks[k]
    ensures forall k <- s.tasks :: s.tasks[k].request != r ==> k in s'.tasks
    ensures s'.mem == s.mem || exists t, st :: Holds(s.mem, t, r) && s'.mem == WithStatus(s.mem, t, st)
    ensures (forall k <- s.tasks :: DeliversForApp(s, k, r) ==> Detached(s, k)) ==> s'.mem == s.mem
  {
    if k :| k in s.tasks && s.tasks[k].app && s.tasks[k].request == r {
      s' := TaskEnds(s, k, inputs);
      forall l <- s'.tasks ensures !(s'.tasks[l].app && s'.tasks[l].request == r) {
        assert Apart(s.tasks[k], s.tasks[l]);
      }
    } else {
      s' := s;
    }
  }

  // ---- from a lost status to a second send ----

  predicate SentLive(s: State, r: RequestId) {
    exists i :: 0 <= i < |s.sends| && s.sends[i].request == r && Live(s.sends[i])
  }

  lemma StillSentLive(s: State, s': State, r: RequestId)
    requires SentLive(s, r) && SameLive(s.sends, s'.sends)
    ensures SentLive(s', r)
  {
    var i :| 0 <= i < |s.sends| && s.sends[i].request == r && Live(s.sends[i]);
    assert s'.sends[i].request == r && Live(s'.sends[i]);
  }

  lemma DeliveryBreaks(s: State, k: TaskId, inputs: RequestId -> Input)
    requires k in s.tasks && s.tasks[k].pc.HasThread? && SentLive(s, s.tasks[k].request)
    requires var t := s.tasks[k].pc.t;
      && Holds(s.mem, t, s.tasks[k].request) && StatusOf(s.mem, t) in {Pending, Failed} && !s.mem.threads[t].archived
    ensures Leads(s, inputs, SentTwice)
  {
    var t, r := s.tasks[k].pc.t, s.tasks[k].request;
    Goes(s, EnterSend(k, Saved), inputs);
    var s1 := Step(s, EnterSend(k, Saved));
    Goes(s1, PrepareDone(k, Proceed, Saved, Saved), inputs);
    var s2 := Step(s1, PrepareDone(k, Proceed, Saved, Saved));
    assert s2.sends == s.sends + [NewSend(r, t)];
    var i :| 0 <= i < |s.sends| && s.sends[i].request == r && Live(s.sends[i]);
    assert s2.sends[i] == s.sends[i] && s2.sends[|s.sends|] == NewSend(r, t);
    LeadsNow(s2, inputs, SentTwice);
  }

  // A task that waits for its admission, with nothing in its way.
  predicate Free(s: State, k: TaskId) {
    k in s.tasks && s.tasks[k].pc.Queued? && LockFree(s) && !Leased(s.gate) && Nested(k) !in s.gate.open
  }

  lemma Admitted(s: State, k: TaskId, inputs: RequestId -> Input) returns (s': State)
    requires Free(s, k)
    ensures Precedes(s, s', inputs) && s' == Step(s, Begin(k, Saved)) && Enabled(s', Acquire(k, Saved))
    ensures s'.tasks == s.tasks[k := s.tasks[k].(pc := WaitingLock)]
    ensures s' == s.(tasks := s'.tasks, gate := s'.gate) && s'.gate.open == s.gate.open + {Nested(k)}
  {
    Goes(s, Begin(k, Saved), inputs);
    s' := Step(s, Begin(k, Saved));
  }

  lemma RetryEnters(s: State, k: TaskId, t: ThreadId, inputs: RequestId -> Input) returns (s': State)
    requires Free(s, k) && UniqueRequests(s.mem) && Holds(s.mem, t, s.tasks[k].request)
    requires s.mem.threads[t].record.value.input == s.tasks[k].input
    ensures Precedes(s, s', inputs) && s'.mem.threads == s.mem.threads && s'.sends == s.sends
    ensures k in s'.tasks && s'.tasks[k] == s.tasks[k].(pc := HasThread(t))
  {
    var s1 := Admitted(s, k, inputs);
    assert HasRecord(s1.mem, s.tasks[k].request) && RecordOf(s1.mem, s.tasks[k].request) == t;
    Goes(s1, Acquire(k, Saved), inputs);
    s' := Step(s1, Acquire(k, Saved));
  }

  // The record says that its message did not go out, and the input can be repeated.
  ghost predicate Repeatable(s: Store, t: ThreadId, r: RequestId, inputs: RequestId -> Input) {
    && UniqueRequests(s) && Holds(s, t, r) && StatusOf(s, t) in {Pending, Failed}
    && var input := s.threads[t].record.value.input;
       if r.App? then input == inputs(r) else input.attachments == []
  }

  // Task k is about to deliver the record of t.
  predicate AtDoor(s: State, k: TaskId, t: ThreadId, r: RequestId) {
    && k in s.tasks && s.tasks[k].pc == HasThread(t) && s.tasks[k].request == r
    && Holds(s.mem, t, r) && StatusOf(s.mem, t) in {Pending, Failed} && !s.mem.threads[t].archived
  }

  // Such a record is picked up again: by a retry of the app, or by a Telegram resume.
  lemma Reenters(s: State, h: nat, t: ThreadId, r: RequestId, inputs: RequestId -> Input) returns (s': State, k: TaskId)
    requires Quiet(s, h) && Repeatable(s.mem, t, r, inputs) && (r.App? ==> !HasAppTask(s, r))
    ensures Precedes(s, s', inputs) && AtDoor(s', k, t, r) && s'.sends == s.sends
  {
    Goes(s, SetArchived(t, false), inputs);
    var s1 := Step(s, SetArchived(t, false));
    assert s1.mem.threads[t].record == s.mem.threads[t].record && s1.tasks == s.tasks && s1.sends == s.sends;
    s', k := ListedReenters(s1, h, t, r, inputs);
  }

  lemma ListedReenters(s: State, h: nat, t: ThreadId, r: RequestId, inputs: RequestId -> Input)
    returns (s': State, k: TaskId)
    requires Quiet(s, h) && Repeatable(s.mem, t, r, inputs) && (r.App? ==> !HasAppTask(s, r))
    requires !s.mem.threads[t].archived
    ensures Precedes(s, s', inputs) && AtDoor(s', k, t, r) && s'.sends == s.sends
  {
    var input := s.mem.threads[t].record.value.input;
    assert HasRecord(s.mem, r);
    k := UnusedTask(s);
    var e := if r.App? then Submit(h, k, r, input, Saved) else TelegramResume(k, t);
    Goes(s, e, inputs);
    var s1 := Step(s, e);
    assert s1.tasks == s.tasks[k := Task(r.App?, r, input, Queued)];
    assert s1.mem == s.mem;
    s' := RetryEnters(s1, k, t, inputs);
  }

  // A record that no longer says that its message went out is sent again.
  lemma LostStatusBreaks(s: State, h: nat, t: ThreadId, r: RequestId, inputs: RequestId -> Input)
    requires Quiet(s, h) && Repeatable(s.mem, t, r, inputs) && (r.App? ==> !HasAppTask(s, r)) && SentLive(s, r)
    ensures Leads(s, inputs, SentTwice)
  {
    var s', k := Reenters(s, h, t, r, inputs);
    StillSentLive(s, s', r);
    DeliveryBreaks(s', k, inputs);
  }

  // ---- from a lost record to a second creation and a second send ----

  lemma NewThreadBreaks(s: State, k: TaskId, inputs: RequestId -> Input)
    requires k in s.tasks && s.tasks[k].pc.Creating? && SentLive(s, s.tasks[k].request)
    ensures Leads(s, inputs, SentTwice)
  {
    var t := UnusedEntry(s);
    var e := CreateDone(k, Created(t), Saved, Saved);
    Goes(s, e, inputs);
    var s1 := Step(s, e);
    assert s1.tasks[k].pc == HasThread(t) && s1.sends == s.sends;
    DeliveryBreaks(s1, k, inputs);
  }

  // A task that looks for a record that is gone.
  lemma WaiterBreaks(s: State, k: TaskId, inputs: RequestId -> Input)
    requires k in s.tasks && s.tasks[k].pc.WaitingLock? && LockFree(s) && !HasRecord(s.mem, s.tasks[k].request)
    ensures s.tasks[k].request in s.starts && s.tasks[k].request.App? ==> Leads(s, inputs, CreatedTwice)
    ensures SentLive(s, s.tasks[k].request) ==> Leads(s, inputs, SentTwice)
  {
    var r := s.tasks[k].request;
    Goes(s, Acquire(k, Saved), inputs);
    var s' := Step(s, Acquire(k, Saved));
    assert s'.starts == s.starts + [r] && s'.mem == s.mem && s'.sends == s.sends;
    if r in s.starts && r.App? {
      var i :| 0 <= i < |s.starts| && s.starts[i] == r;
      assert s'.starts[i] == r && s'.starts[|s.starts|] == r;
      LeadsNow(s', inputs, CreatedTwice);
    }
    if SentLive(s, r) {
      StillSentLive(s, s', r);
      NewThreadBreaks(s', k, inputs);
    }
  }

  lemma CreationBreaks(s: State, k: TaskId, inputs: RequestId -> Input)
    requires Free(s, k) && !HasRecord(s.mem, s.tasks[k].request)
    ensures s.tasks[k].request in s.starts && s.tasks[k].request.App? ==> Leads(s, inputs, CreatedTwice)
    ensures SentLive(s, s.tasks[k].request) ==> Leads(s, inputs, SentTwice)
  {
    var s1 := Admitted(s, k, inputs);
    if SentLive(s, s.tasks[k].request) { StillSentLive(s, s1, s.tasks[k].request); }
    WaiterBreaks(s1, k, inputs);
  }

  // A request whose record is gone is created again, and sent again if it had been sent.
  lemma LostRecordBreaks(s: State, h: nat, r: RequestId, inputs: RequestId -> Input)
    requires Quiet(s, h) && !HasRecord(s.mem, r)
    requires r.App? ==> !HasAppTask(s, r) && !Blocks(s.mem.creation)
    ensures r in s.starts && r.App? ==> Leads(s, inputs, CreatedTwice)
    ensures SentLive(s, r) ==> Leads(s, inputs, SentTwice)
  {
    var k := UnusedTask(s);
    var e := if r.App? then Submit(h, k, r, inputs(r), Saved) else TelegramNew(k, r, "");
    Goes(s, e, inputs);
    var s1 := Step(s, e);
    assert s1.mem.threads == s.mem.threads && s1.sends == s.sends && s1.starts == s.starts;
    assert s1.tasks.Keys == s.tasks.Keys + {k} && s1.tasks[k].request == r && s1.tasks[k].pc == Queued;
    assert forall t <- s.mem.threads :: !Holds(s1.mem, t, r);
    if SentLive(s, r) { StillSentLive(s, s1, r); }
    CreationBreaks(s1, k, inputs);
  }

  // ---- a retry with other input ----

  // Task k waits to retry the request of t with other input; no other app task works on it.
  ghost predicate Poised(s: State, h: nat, k: TaskId, t: ThreadId, inputs: RequestId -> Input) {
    && Quiet(s, h) && Free(s, k) && UniqueRequests(s.mem)
    && s.tasks[k].app && s.tasks[k].request.App? && Holds(s.mem, t, s.tasks[k].request)
    && s.mem.threads[t].record.value.input == inputs(s.tasks[k].request) != s.tasks[k].input
    && !s.mem.threads[t].archived
    && forall l <- s.tasks :: s.tasks[l].app && s.tasks[l].request == s.tasks[k].request ==> l == k
  }

  lemma MismatchBreaks(s: State, h: nat, k: TaskId, t: ThreadId, inputs: RequestId -> Input)
    requires Poised(s, h, k, t, inputs) && SentLive(s, s.tasks[k].request)
    ensures Leads(s, inputs, SentTwice)
  {
    var r := s.tasks[k].request;
    var s1 := Admitted(s, k, inputs);
    assert HasRecord(s1.mem, r) && RecordOf(s1.mem, r) == t;
    Goes(s1, Acquire(k, Saved), inputs);
    var s2 := Step(s1, Acquire(k, Saved));
    assert s2.mem == WithStatus(s.mem, t, Failed) && s2.tasks == s.tasks - {k} && s2.sends == s.sends;
    StillSentLive(s, s2, r);
    LostStatusBreaks(s2, h, t, r, inputs);
  }

  // Somebody else delivers the record before that retry gets the lock.
  lemma DeliveryThenMismatch(s: State, h: nat, k: TaskId, l: TaskId, t: ThreadId, inputs: RequestId -> Input)
    requires Poised(s, h, k, t, inputs)
    requires l in s.tasks && s.tasks[l].pc == BeforeSend(t) && s.tasks[l].request == s.tasks[k].request
    ensures Leads(s, inputs, SentTwice)
  {
    var r := s.tasks[k].request;
    Goes(s, PrepareDone(l, Proceed, Saved, Saved), inputs);
    var s1 := Step(s, PrepareDone(l, Proceed, Saved, Saved));
    assert s1.mem == WithStatus(s.mem, t, Sending) && s1.sends[|s.sends|] == NewSend(r, t);
    MismatchBreaks(s1, h, k, t, inputs);
  }

  lemma EntryThenMismatch(s: State, h: nat, k: TaskId, l: TaskId, t: ThreadId, inputs: RequestId -> Input)
    requires Poised(s, h, k, t, inputs) && StatusOf(s.mem, t) in {Pending, Failed}
    requires l in s.tasks && s.tasks[l].pc == HasThread(t) && s.tasks[l].request == s.tasks[k].request
    ensures Leads(s, inputs, SentTwice)
  {
    Goes(s, EnterSend(l, Saved), inputs);
    var s1 := Step(s, EnterSend(l, Saved));
    assert s1.mem == WithStatus(s.mem, t, Preparing);
    DeliveryThenMismatch(s1, h, k, l, t, inputs);
  }

  lemma ScanThenMismatch(s: State, h: nat, k: TaskId, l: TaskId, t: ThreadId, inputs: RequestId -> Input)
    requires Poised(s, h, k, t, inputs) && StatusOf(s.mem, t) in {Pending, Failed} && l != k && Free(s, l)
    requires s.tasks[l] == Task(false, s.tasks[k].request, s.mem.threads[t].record.value.input, Queued)
    ensures Leads(s, inputs, SentTwice)
  {
    var s1 := Admitted(s, l, inputs);
    assert HasRecord(s1.mem, s.tasks[k].request) && RecordOf(s1.mem, s.tasks[k].request) == t;
    Goes(s1, Acquire(l, Saved), inputs);
    var s2 := Step(s1, Acquire(l, Saved));
    assert s2.mem == s.mem && s2.tasks == s.tasks[l := s.tasks[l].(pc := HasThread(t))];
    assert s2.gate.open - {Nested(l)} == s.gate.open - {Nested(l)};
    EntryThenMismatch(s2, h, k, l, t, inputs);
  }

  // A Telegram resume repeats an input without attachments.
  lemma ResumeThenMismatch(s: State, h: nat, k: TaskId, t: ThreadId, inputs: RequestId -> Input)
    requires Poised(s, h, k, t, inputs) && StatusOf(s.mem, t) in {Pending, Failed}
    requires s.mem.threads[t].record.value.input.attachments == []
    ensures Leads(s, inputs, SentTwice)
  {
    var l := UnusedTask(s);
    Goes(s, TelegramResume(l, t), inputs);
    var s1 := Step(s, TelegramResume(l, t));
    assert s1.tasks[l] == Task(false, s.tasks[k].request, s.mem.threads[t].record.value.input, Queued);
    ScanThenMismatch(s1, h, k, l, t, inputs);
  }

  // A late receipt first tells that nothing was delivered.
  lemma ReceiptThenMismatch(s: State, h: nat, k: TaskId, t: ThreadId, call: nat, inputs: RequestId -> Input)
    requires Poised(s, h, k, t, inputs) && StatusOf(s.mem, t) in {Sent, Unknown} && NothingLiveFor(s.sends, t)
    requires call < |s.sends| && s.sends[call].thread == t && s.sends[call].request == s.tasks[k].request
    requires s.mem.threads[t].record.value.input.attachments == []
    ensures Leads(s, inputs, SentTwice)
  {
    var e := ReceiptStored(t, call, VerdictFailed, true, Saved);
    Goes(s, e, inputs);
    var s1 := Step(s, e);
    assert s1.mem == WithReceipt(s.mem, t, Some(Receipt(VerdictFailed, call, true)));
    RecheckThenMismatch(s1, h, k, t, inputs);
  }

  // The "failed" that is stored may be about another provider id, until the entry is bound
  // back to it.
  lemma StoredThenMismatch(s: State, h: nat, k: TaskId, t: ThreadId, inputs: RequestId -> Input)
    requires Poised(s, h, k, t, inputs) && StatusOf(s.mem, t) in {Sent, Unknown} && NothingLiveFor(s.sends, t)
    requires s.mem.threads[t].record.value.receipt.Some?
    requires s.mem.threads[t].record.value.receipt.value.verdict.VerdictFailed?
    requires s.mem.threads[t].record.value.input.attachments == []
    ensures Leads(s, inputs, SentTwice)
  {
    Goes(s, Rebound(t, true), inputs);
    var s1 := Step(s, Rebound(t, true));
    assert s1.mem == WithReceipt(s.mem, t, Some(s.mem.threads[t].record.value.receipt.value.(matches := true)));
    RecheckThenMismatch(s1, h, k, t, inputs);
  }

  lemma RecheckThenMismatch(s: State, h: nat, k: TaskId, t: ThreadId, inputs: RequestId -> Input)
    requires Poised(s, h, k, t, inputs) && StatusOf(s.mem, t) in {Sent, Unknown} && NothingLiveFor(s.sends, t)
    requires var receipt := s.mem.threads[t].record.value.receipt;
      receipt.Some? && receipt.value.verdict.VerdictFailed? && receipt.value.matches
    requires s.mem.threads[t].record.value.input.attachments == []
    ensures Leads(s, inputs, SentTwice)
  {
    Goes(s, Recheck(t, Saved), inputs);
    var s1 := Step(s, Recheck(t, Saved));
    assert s1.mem == WithStatus(s.mem, t, Failed);
    ResumeThenMismatch(s1, h, k, t, inputs);
  }

  // Some word makes the record "failed" before the retry gets the lock.
  lemma WordThenMismatch(s: State, h: nat, k: TaskId, t: ThreadId, inputs: RequestId -> Input)
    requires Poised(s, h, k, t, inputs) && StatusOf(s.mem, t) in {Sent, Unknown} && NothingLiveFor(s.sends, t)
    requires !NoWord(s.sends, t, s.mem.threads[t].record.value)
    requires s.mem.threads[t].record.value.input.attachments == []
    ensures Leads(s, inputs, SentTwice)
  {
    if i :| 0 <= i < |s.sends| && s.sends[i].thread == t && s.sends[i].request == s.tasks[k].request {
      ReceiptThenMismatch(s, h, k, t, i, inputs);
    } else {
      StoredThenMismatch(s, h, k, t, inputs);
    }
  }

  // Nothing live was sent for the record of r, so nothing live was sent for r.
  lemma NothingLiveMeansNotSent(s: State, t: ThreadId, r: RequestId, inputs: RequestId -> Input)
    requires Inv(s, inputs) && Holds(s.mem, t, r)
    ensures NothingLiveFor(s.sends, t) ==> NotSent(s.sends, r)
    ensures !NothingLiveFor(s.sends, t) ==> SentLive(s, r)
  {
    forall i | 0 <= i < |s.sends| && Live(s.sends[i])
      ensures s.sends[i].thread == t <==> s.sends[i].request == r
    {
      assert Guards(s.mem, s.sends[i]);
      assert HasRecord(s.mem, r);
    }
  }

  function Waiting(s: State, k: TaskId, r: RequestId, input: Input): State {
    s.(tasks := s.tasks[k := Task(true, r, input, Queued)], gate := Spawn(s.gate, k))
  }

  lemma WaitingIsOrderly(s: State, k: TaskId, r: RequestId, input: Input, inputs: RequestId -> Input)
    requires Inv(s, inputs) && !HasAppTask(s, r) && FreshTask(s, k)
    ensures Orderly(Waiting(s, k, r, input))
  {
    InvIsOrderly(s, inputs);
  }

  // The retry waits, and everything else is as it was.
  predicate RetryAdded(s: State, s': State, k: TaskId, r: RequestId, input: Input) {
    && s'.sends == s.sends && k in s'.tasks && s'.tasks[k] == Task(true, r, input, Queued)
    && forall l <- s.tasks :: !s.tasks[l].pc.Creating? ==> l in s'.tasks && s'.tasks[l] == s.tasks[l]
  }

  lemma RetryIsCalm(s: State, k: TaskId, r: RequestId, input: Input, inputs: RequestId -> Input)
    returns (s': State, h: nat)
    requires Inv(s, inputs) && !HasAppTask(s, r) && FreshTask(s, k)
    ensures Precedes(Waiting(s, k, r, input), s', inputs) && RetryAdded(s, s', k, r, input)
    ensures Quiet(s', h) && Orderly(s') && s'.mem == s.mem
  {
    WaitingIsOrderly(s, k, r, input, inputs);
    s', h := Calmed(Waiting(s, k, r, input), inputs);
  }

  lemma RetryWaits(s: State, k: TaskId, t: ThreadId, r: RequestId, input: Input, inputs: RequestId -> Input)
    returns (s': State, h: nat)
    requires Inv(s, inputs) && Holds(s.mem, t, r) && r.App? && input != s.mem.threads[t].record.value.input
    requires !HasAppTask(s, r) && FreshTask(s, k)
    ensures Precedes(Waiting(s, k, r, input), s', inputs) && RetryAdded(s, s', k, r, input)
    ensures Poised(s', h, k, t, inputs) && s'.mem.threads[t].record == s.mem.threads[t].record
  {
    RecordedInput(s, t, r, inputs);
    var s1;
    s1, h := RetryIsCalm(s, k, r, input, inputs);
    Goes(s1, SetArchived(t, false), inputs);
    s' := ArchiveCleared(s1, t);
    CalmedIsPoised(s1, h, k, t, r, input, inputs);
  }

  lemma RecordedInput(s: State, t: ThreadId, r: RequestId, inputs: RequestId -> Input)
    requires Inv(s, inputs) && Holds(s.mem, t, r) && r.App?
    ensures s.mem.threads[t].record.value.input == inputs(r)
  {
    assert RecordOk(s.mem.threads[t].record.value, s.starts, inputs);
  }

  lemma CalmedIsPoised(s: State, h: nat, k: TaskId, t: ThreadId, r: RequestId, input: Input,
                       inputs: RequestId -> Input)
    requires Quiet(s, h) && Orderly(s) && k in s.tasks && s.tasks[k] == Task(true, r, input, Queued)
    requires UniqueRequests(s.mem) && Holds(s.mem, t, r) && r.App?
    requires s.mem.threads[t].record.value.input == inputs(r) != input
    ensures Poised(ArchiveCleared(s, t), h, k, t, inputs)
  {
    ArchiveMarksAreFree(s.mem, ArchiveCleared(s, t).mem, t);
    forall l <- s.tasks | s.tasks[l].app && s.tasks[l].request == r ensures l == k {
      assert l != k ==> Apart(s.tasks[l], s.tasks[k]);
    }
  }

  lemma ArchiveMarksAreFree(a: Store, b: Store, t: ThreadId)
    requires UniqueRequests(a) && t in a.threads && b.threads == a.threads[t := a.threads[t].(archived := false)]
    ensures UniqueRequests(b)
  {
  }

  function ArchiveCleared(s: State, t: ThreadId): (s': State)
    requires t in s.mem.threads
    ensures s'.mem.threads == s.mem.threads[t := s.mem.threads[t].(archived := false)]
    ensures s' == Step(s, SetArchived(t, false)) == s.(mem := s'.mem)
  {
    s.(mem := s.mem.(threads := s.mem.threads[t := s.mem.threads[t].(archived := false)]))
  }

  lemma HarmfulRetryBreaks(s: State, k: TaskId, t: ThreadId, r: RequestId, input: Input, inputs: RequestId -> Input)
    requires Inv(s, inputs) && Holds(s.mem, t, r) && r.App? && input != s.mem.threads[t].record.value.input
    requires !HasAppTask(s, r) && FreshTask(s, k) && !MismatchIsHarmless(s, r)
    ensures Leads(Waiting(s, k, r, input), inputs, SentTwice)
  {
    var s', h := RetryWaits(s, k, t, r, input, inputs);
    NothingLiveMeansNotSent(s, t, r, inputs);
    HarmIsAtTheRecord(s, t, r);
    if !NothingLiveFor(s.sends, t) {
      StillSentLive(s, s', r);
      MismatchBreaks(s', h, k, t, inputs);
    } else if !NobodyDelivers(s, t) {
      DeliveryUnderWayBreaks(s, s', h, k, t, inputs);
    } else if StatusOf(s.mem, t) in {Pending, Failed} {
      ResumeThenMismatch(s', h, k, t, inputs);
    } else {
      var st := StatusOf(s.mem, t);
      assert st != Preparing && st != Sending && st != Pending && st != Failed;
      WordThenMismatch(s', h, k, t, inputs);
    }
  }

  lemma DeliveryUnderWayBreaks(s: State, s': State, h: nat, k: TaskId, t: ThreadId, inputs: RequestId -> Input)
    requires Inv(s, inputs) && Poised(s', h, k, t, inputs) && Holds(s.mem, t, s'.tasks[k].request)
    requires !HasAppTask(s, s'.tasks[k].request) && NothingLiveFor(s.sends, t) && !NobodyDelivers(s, t)
    requires s'.mem.threads[t].record == s.mem.threads[t].record
    requires RetryAdded(s, s', k, s'.tasks[k].request, s'.tasks[k].input)
    ensures Leads(s', inputs, SentTwice)
  {
    var l :| l in s.tasks && Delivering(s.tasks[l].pc) && s.tasks[l].pc.t == t;
    assert TaskOk(s, l, inputs);
    assert s.tasks[l].pc.BeforeSend?;
    DeliveryThenMismatch(s', h, k, l, t, inputs);
  }

  lemma HarmIsAtTheRecord(s: State, t: ThreadId, r: RequestId)
    requires UniqueRequests(s.mem) && Holds(s.mem, t, r) && !MismatchIsHarmless(s, r)
    ensures || !NothingLiveFor(s.sends, t) || !NobodyDelivers(s, t)
            || (s.mem.threads[t].record.value.input.attachments == [] && !Stuck(s, t))
  {
    assert forall u <- s.mem.threads :: Holds(s.mem, u, r) ==> u == t;
  }

  // A retry breaks the promise, in some continuation that is otherwise as assumed, if and
  // only if its input is not the recorded one, it does not join a running task, and
  // something live was sent, or somebody delivers, or a Telegram resume could.
  lemma RetryBreaksExactly(s: State, h: nat, k: TaskId, t: ThreadId, r: RequestId, input: Input, save: Save,
                           inputs: RequestId -> Input)
    requires Inv(s, inputs) && Enabled(s, Submit(h, k, r, input, save)) && Holds(s.mem, t, r)
    ensures CanBreak(Step(s, Submit(h, k, r, input, save)), inputs) <==>
      input != s.mem.threads[t].record.value.input && !HasAppTask(s, r) && !MismatchIsHarmless(s, r)
  {
    var e := Submit(h, k, r, input, save);
    assert HasRecord(s.mem, r) && RecordOk(s.mem.threads[t].record.value, s.starts, inputs);
    if input == inputs(r) || HasAppTask(s, r) || MismatchIsHarmless(s, r) {
      StepKeeps(s, e, inputs);
      NoneLeads(Step(s, e), inputs);
    } else {
      HarmfulRetryBreaks(s, k, t, r, input, inputs);
    }
  }

  // ---- a pass that drops records ----

  // No creation is open: a started app request without a record is created again.
  lemma OpenedBreaks(s: State, r: RequestId, inputs: RequestId -> Input)
    requires Orderly(s) && !Blocks(s.mem.creation) && r.App? && r in s.starts && !HasRecord(s.mem, r)
    ensures Leads(s, inputs, CreatedTwice)
  {
    var s1, h := Calmed(s, inputs);
    assert forall t :: !Holds(s1.mem, t, r);
    var s2 := WithoutAppTask(s1, r, inputs);
    LostRecordBreaks(s2, h, r, inputs);
  }

  // The creation that is under way gets its record, and no creation is open any more.
  lemma CreationOpens(s: State, k: TaskId, r: RequestId, inputs: RequestId -> Input)
    requires Orderly(s) && k in s.tasks && s.tasks[k].pc.Creating? && s.tasks[k].app && s.tasks[k].request != r
    requires s.mem.creation.Some? && s.mem.creation.value.request == s.tasks[k].request
    requires r.App? && r in s.starts && !HasRecord(s.mem, r)
    ensures Leads(s, inputs, CreatedTwice)
  {
    var t := UnusedEntry(s);
    var e := CreateDone(k, Created(t), Saved, Saved);
    Goes(s, e, inputs);
    var s1 := Step(s, e);
    RecordsAfterInsert(s.mem, t, NewRecord(s.tasks[k]), r);
    SameHolders(Inserted(s.mem, t, NewRecord(s.tasks[k])), s1.mem, r);
    OpenedBreaks(s1, r, inputs);
  }

  // The creation that waits for the lock is let through, or is itself a second one.
  lemma WaiterOpens(s: State, k: TaskId, r: RequestId, inputs: RequestId -> Input)
    requires Orderly(s) && LockFree(s) && k in s.tasks && s.tasks[k].pc.WaitingLock?
    requires var q := s.tasks[k].request; s.tasks[k].app && q.App? && q != r && !HasRecord(s.mem, q)
    requires s.mem.creation.Some? && s.mem.creation.value.request == s.tasks[k].request
    requires r.App? && r in s.starts && !HasRecord(s.mem, r)
    ensures Leads(s, inputs, CreatedTwice)
  {
    Goes(s, Acquire(k, Saved), inputs);
    CreationOpens(Step(s, Acquire(k, Saved)), k, r, inputs);
  }

  lemma QueuedOpens(s: State, h: nat, k: TaskId, r: RequestId, inputs: RequestId -> Input)
    requires Orderly(s) && Quiet(s, h) && k in s.tasks && BeforeScan(s.tasks[k].pc)
    requires var q := s.tasks[k].request; s.tasks[k].app && q.App? && q != r && !HasRecord(s.mem, q)
    requires s.mem.creation.Some? && s.mem.creation.value.request == s.tasks[k].request
    requires r.App? && r in s.starts && !HasRecord(s.mem, r)
    ensures Leads(s, inputs, CreatedTwice)
  {
    if s.tasks[k].pc.Queued? {
      var s1 := Admitted(s, k, inputs);
      WaiterOpens(s1, k, r, inputs);
    } else {
      WaiterOpens(s, k, r, inputs);
    }
  }

  // A retry of the request whose record is there takes its open creation away.
  lemma RecordOpens(s: State, h: nat, u: ThreadId, q: RequestId, r: RequestId, inputs: RequestId -> Input)
    requires Orderly(s) && Quiet(s, h) && UniqueRequests(s.mem) && !HasAppTask(s, q) && q.App?
    requires Holds(s.mem, u, q) && s.mem.threads[u].record.value.input == inputs(q)
    requires s.mem.creation.Some? && s.mem.creation.value.request == q
    requires r.App? && r in s.starts && !HasRecord(s.mem, r)
    ensures Leads(s, inputs, CreatedTwice)
  {
    var k := UnusedTask(s);
    var e := Submit(h, k, q, inputs(q), Saved);
    Goes(s, e, inputs);
    assert HasRecord(s.mem, q);
    var s1 := Waiting(s, k, q, inputs(q));
    var s2 := Admitted(s1, k, inputs);
    assert RecordOf(s2.mem, q) == u;
    Goes(s2, Acquire(k, Saved), inputs);
    var s3 := Step(s2, Acquire(k, Saved));
    assert s3.mem == s.mem.(creation := None) && s3.starts == s.starts;
    assert s3.tasks == s.tasks[k := Task(true, q, inputs(q), HasThread(u))];
    SameHolders(s.mem, s3.mem, r);
    OpenedBreaks(s3, r, inputs);
  }

  // The dropped request is created again, whatever creation is open, unless that one is
  // without a record and without a task.
  lemma ReopenedBreaks(s: State, kept: Store, r: RequestId, inputs: RequestId -> Input)
    requires Inv(s, inputs) && Thinned(s.mem, kept) && HasRecord(s.mem, r) && !HasRecord(kept, r)
    requires r.App? && r in s.starts && !Waited(s, r)
    requires !Frozen(kept) || BeingCreated(s, kept.creation.value.request)
    ensures Leads(s.(mem := kept), inputs, CreatedTwice)
  {
    var s' := s.(mem := kept);
    InvIsOrderly(s, inputs);
    assert Orderly(s');
    if !Blocks(kept.creation) {
      OpenedBreaks(s', r, inputs);
    } else {
      var q := kept.creation.value.request;
      if k :| k in s.tasks && s.tasks[k].app && s.tasks[k].pc.Creating? {
        assert TaskOk(s, k, inputs);
        CreationOpens(s', k, r, inputs);
      } else if u :| u in kept.threads && Holds(kept, u, q) {
        KeptRecordOpens(s, kept, u, q, r, inputs);
      } else {
        OpenRequestOpens(s', q, r, inputs);
      }
    }
  }

  lemma OpenRequestOpens(s: State, q: RequestId, r: RequestId, inputs: RequestId -> Input)
    requires Orderly(s) && s.mem.creation.Some? && s.mem.creation.value.request == q && !HasRecord(s.mem, q)
    requires BeingCreated(s, q) && q.App? && q != r
    requires forall k <- s.tasks :: s.tasks[k].app ==> !s.tasks[k].pc.Creating?
    requires r.App? && r in s.starts && !HasRecord(s.mem, r)
    ensures Leads(s, inputs, CreatedTwice)
  {
    var k :| k in s.tasks && s.tasks[k].app && !PastScan(s.tasks[k].pc) && s.tasks[k].request == q;
    var s1, h := Calmed(s, inputs);
    QueuedOpens(s1, h, k, r, inputs);
  }

  lemma KeptRecordOpens(s: State, kept: Store, u: ThreadId, q: RequestId, r: RequestId, inputs: RequestId -> Input)
    requires Inv(s, inputs) && Thinned(s.mem, kept) && Holds(kept, u, q)
    requires kept.creation.Some? && kept.creation.value.request == q
    requires r.App? && r in s.starts && !HasRecord(kept, r)
    ensures Leads(s.(mem := kept), inputs, CreatedTwice)
  {
    InvIsOrderly(s, inputs);
    var s1, h := Calmed(s.(mem := kept), inputs);
    var s2 := WithoutAppTask(s1, q, inputs);
    RecordedInput(s, u, q, inputs);
    OtherRecordsStay(kept, s2.mem, u, q, r);
    RecordOpens(s2, h, u, q, r, inputs);
  }

  // Another status changes no holder.
  lemma OtherRecordsStay(a: Store, b: Store, u: ThreadId, q: RequestId, r: RequestId)
    requires UniqueRequests(a) && Holds(a, u, q) && !HasRecord(a, r)
    requires b == a || exists t, st :: Holds(a, t, q) && b == WithStatus(a, t, st)
    ensures UniqueRequests(b) && Holds(b, u, q) && !HasRecord(b, r) && b.creation == a.creation
    ensures b.threads[u].record.value.input == a.threads[u].record.value.input
  {
    SameHolders(a, b, r);
  }

  lemma WaitingTaskBreaks(s: State, k: TaskId, inputs: RequestId -> Input)
    requires Orderly(s) && k in s.tasks && BeforeScan(s.tasks[k].pc) && !HasRecord(s.mem, s.tasks[k].request)
    requires s.tasks[k].request.App? && s.tasks[k].request in s.starts
    ensures Leads(s, inputs, CreatedTwice)
  {
    var s1, h := Calmed(s, inputs);
    if s.tasks[k].pc.Queued? {
      CreationBreaks(s1, k, inputs);
    } else {
      WaiterBreaks(s1, k, inputs);
    }
  }

  lemma HarmfulLossBreaks(s: State, kept: Store, t: ThreadId, r: RequestId, inputs: RequestId -> Input)
    requires Inv(s, inputs) && Thinned(s.mem, kept) && Holds(s.mem, t, r) && t !in kept.threads
    requires !LossIsHarmless(s, kept, t, r)
    ensures CanBreak(s.(mem := kept), inputs)
  {
    var s' := s.(mem := kept);
    InvIsOrderly(s, inputs);
    DroppedIsGone(s.mem, kept, t, r);
    assert HasRecord(s.mem, r) && RecordOk(s.mem.threads[t].record.value, s.starts, inputs);
    if r.Telegram? {
      NothingLiveMeansNotSent(s, t, r, inputs);
      var s1, h := Calmed(s', inputs);
      StillSentLive(s, s1, r);
      LostRecordBreaks(s1, h, r, inputs);
    } else if k :| k in s.tasks && BeforeScan(s.tasks[k].pc) && s.tasks[k].request == r {
      WaitingTaskBreaks(s', k, inputs);
    } else {
      ReopenedBreaks(s, kept, r, inputs);
    }
  }

  // A pass breaks the promise, in some continuation that is otherwise as assumed, if and
  // only if it drops a record that may not go.
  lemma PassBreaksExactly(s: State, kept: Store, inputs: RequestId -> Input)
    requires Inv(s, inputs) && Enabled(s, ListPass(kept))
    ensures CanBreak(Step(s, ListPass(kept)), inputs) <==> !PassIsHarmless(s, kept)
  {
    if PassIsHarmless(s, kept) {
      PassKeeps(s, kept, inputs);
      NoneLeads(Step(s, ListPass(kept)), inputs);
    } else {
      var t :| t in s.mem.threads && t !in kept.threads && s.mem.threads[t].record.Some?
               && !LossIsHarmless(s, kept, t, s.mem.threads[t].record.value.request);
      HarmfulLossBreaks(s, kept, t, s.mem.threads[t].record.value.request, inputs);
    }
  }

  // ---- a recheck by an old receipt ----

  // No app task delivers a record that a recheck may settle.
  lemma SettledIsNotDelivered(s: State, k: TaskId, t: ThreadId, r: RequestId, inputs: RequestId -> Input)
    requires Inv(s, inputs) && Holds(s.mem, t, r) && Rechecks(s.mem.threads[t]) && DeliversForApp(s, k, r)
    ensures Detached(s, k)
  {
    assert TaskOk(s, k, inputs);
  }

  lemma SettledIsOrderly(s: State, t: ThreadId, st: Status, disk: Store, inputs: RequestId -> Input)
    requires Inv(s, inputs) && t in s.mem.threads && s.mem.threads[t].record.Some?
    ensures Orderly(s.(mem := WithStatus(s.mem, t, st), disk := disk))
  {
    InvIsOrderly(s, inputs);
  }

  lemma RecordedForRetry(s: State, t: ThreadId, inputs: RequestId -> Input)
    requires Inv(s, inputs) && t in s.mem.threads && s.mem.threads[t].record.Some?
    ensures var record := s.mem.threads[t].record.value;
      if record.request.App? then record.input == inputs(record.request) else record.input.attachments == []
  {
    assert RecordOk(s.mem.threads[t].record.value, s.starts, inputs);
  }

  lemma StaleReceiptForgets(s: State, t: ThreadId, save: Save, inputs: RequestId -> Input)
    requires Inv(s, inputs) && Enabled(s, Recheck(t, save)) && !ReceiptIsCurrent(s, t)
    ensures Rechecks(s.mem.threads[t]) && SentLive(s, s.mem.threads[t].record.value.request)
    ensures var mem := WithStatus(s.mem, t, Failed);
      Step(s, Recheck(t, save)) == s.(mem := mem, disk := Write(s.disk, mem, save))
  {
    NothingLiveMeansNotSent(s, t, s.mem.threads[t].record.value.request, inputs);
  }

  lemma StaleReceiptBreaks(s: State, t: ThreadId, save: Save, inputs: RequestId -> Input)
    requires Inv(s, inputs) && Enabled(s, Recheck(t, save)) && !ReceiptIsCurrent(s, t)
    ensures Leads(Step(s, Recheck(t, save)), inputs, SentTwice)
  {
    StaleReceiptForgets(s, t, save, inputs);
    var mem := WithStatus(s.mem, t, Failed);
    ForgottenSendBreaks(s, t, Write(s.disk, mem, save), inputs);
  }

  lemma ForgottenSendBreaks(s: State, t: ThreadId, disk: Store, inputs: RequestId -> Input)
    requires Inv(s, inputs) && t in s.mem.threads && Rechecks(s.mem.threads[t])
    requires SentLive(s, s.mem.threads[t].record.value.request)
    ensures Leads(s.(mem := WithStatus(s.mem, t, Failed), disk := disk), inputs, SentTwice)
  {
    var r := s.mem.threads[t].record.value.request;
    var s1 := s.(mem := WithStatus(s.mem, t, Failed), disk := disk);
    SettledIsOrderly(s, t, Failed, disk, inputs);
    forall k <- s1.tasks | DeliversForApp(s1, k, r) ensures Detached(s1, k) {
      SettledIsNotDelivered(s, k, t, r, inputs);
    }
    RecordedForRetry(s, t, inputs);
    StillSentLive(s, s1, r);
    FailedRecordBreaks(s1, t, r, inputs);
  }

  // Whoever is at work, the record is picked up again.
  lemma RecordReenters(s: State, t: ThreadId, r: RequestId, inputs: RequestId -> Input) returns (s': State, k: TaskId)
    requires Orderly(s) && Repeatable(s.mem, t, r, inputs)
    requires forall k <- s.tasks :: DeliversForApp(s, k, r) ==> Detached(s, k)
    ensures Precedes(s, s', inputs) && AtDoor(s', k, t, r) && SameLive(s.sends, s'.sends)
  {
    var s1, h := Calmed(s, inputs);
    forall k <- s1.tasks | DeliversForApp(s1, k, r) ensures Detached(s1, k) {
      assert DeliversForApp(s, k, r);
    }
    var s2 := WithoutAppTask(s1, r, inputs);
    s', k := Reenters(s2, h, t, r, inputs);
  }

  lemma FailedRecordBreaks(s: State, t: ThreadId, r: RequestId, inputs: RequestId -> Input)
    requires Orderly(s) && Repeatable(s.mem, t, r, inputs) && SentLive(s, r)
    requires forall k <- s.tasks :: DeliversForApp(s, k, r) ==> Detached(s, k)
    ensures Leads(s, inputs, SentTwice)
  {
    var s', k := RecordReenters(s, t, r, inputs);
    StillSentLive(s, s', r);
    DeliveryBreaks(s', k, inputs);
  }

  // A recheck breaks the promise, in some continuation that is otherwise as assumed, if
  // and only if it goes by a "failed" older than a send that may have arrived.
  lemma RecheckBreaksExactly(s: State, t: ThreadId, save: Save, inputs: RequestId -> Input)
    requires Inv(s, inputs) && Enabled(s, Recheck(t, save))
    ensures CanBreak(Step(s, Recheck(t, save)), inputs) <==> !ReceiptIsCurrent(s, t)
  {
    if ReceiptIsCurrent(s, t) {
      RecheckKeeps(s, t, save, inputs);
      NoneLeads(Step(s, Recheck(t, save)), inputs);
    } else {
      StaleReceiptBreaks(s, t, save, inputs);
    }
  }

  // ---- a rejection after all ----

  lemma FalseRejectionBreaks(s: State, k: TaskId, save: Save, inputs: RequestId -> Input)
    requires Inv(s, inputs) && KnownAccepted(s, k)
    ensures Leads(SendStep(s, k, SendRejected, save), inputs, SentTwice)
  {
    var t, i, r := s.tasks[k].pc.t, s.tasks[k].pc.i, s.tasks[k].request;
    var s1 := SendStep(s, k, SendRejected, save);
    assert TaskOk(s, k, inputs) && RecordOk(s.mem.threads[t].record.value, s.starts, inputs);
    assert s1.mem == WithStatus(s.mem, t, Failed) && s1.sends[i].delivery == Accepted;
    RejectedIsOrderly(s, k, save, inputs);
    assert SentLive(s1, r);
    forall m <- s1.tasks | DeliversForApp(s1, m, r) ensures Detached(s1, m) {
      assert Apart(s.tasks[k], s.tasks[m]);
      assert Holds(s1.mem, s1.tasks[m].pc.t, r) ==> Holds(s.mem, s.tasks[m].pc.t, r);
    }
    FailedRecordBreaks(s1, t, r, inputs);
  }

  lemma RejectedIsOrderly(s: State, k: TaskId, save: Save, inputs: RequestId -> Input)
    requires Inv(s, inputs) && KnownAccepted(s, k)
    ensures Orderly(SendStep(s, k, SendRejected, save))
  {
    InvIsOrderly(s, inputs);
    OthersInFlight(s, k, Concluded(s.sends[s.tasks[k].pc.i], SendRejected), inputs);
  }

  // That a call ends as rejected breaks the promise, in some continuation that is otherwise as
  // assumed, if and only if a receipt has said within that call that it was accepted.
  lemma RejectionBreaksExactly(s: State, k: TaskId, save: Save, inputs: RequestId -> Input)
    requires Inv(s, inputs) && Enabled(s, SendDone(k, SendRejected, save))
    ensures CanBreak(Step(s, SendDone(k, SendRejected, save)), inputs) <==> KnownAccepted(s, k)
  {
    if KnownAccepted(s, k) {
      FalseRejectionBreaks(s, k, save, inputs);
    } else {
      SendKeeps(s, k, SendRejected, save, inputs);
      NoneLeads(Step(s, SendDone(k, SendRejected, save)), inputs);
    }
  }

  // ---- what single steps do ----

  // A creation starts again for a request that was created before exactly when its record
  // is gone, no creation is open, not even its own, and the reservation is saved.
  lemma SubmitCreatesAgainExactly(s: State, h: nat, k: TaskId, r: RequestId, input: Input, save: Save)
    requires Enabled(s, Submit(h, k, r, input, save)) && r in s.starts && !HasAppTask(s, r)
    ensures var s' := Step(s, Submit(h, k, r, input, save));
      k in s'.tasks && !HasRecord(s'.mem, r) <==> !HasRecord(s.mem, r) && !Blocks(s.mem.creation) && save == Saved
  {
    var s' := Step(s, Submit(h, k, r, input, save));
    assert forall t <- s.mem.threads :: Holds(s'.mem, t, r) <==> Holds(s.mem, t, r);
  }

  // A retry of an app request takes a committed record back to `Failed` if and only if
  // its input differs from the recorded one.
  lemma MismatchForgetsCommitment(s: State, k: TaskId, save: Save, t: ThreadId)
    requires UniqueRequests(s.mem) && Enabled(s, Acquire(k, save)) && s.tasks[k].app
    requires Holds(s.mem, t, s.tasks[k].request) && Committed(StatusOf(s.mem, t))
    ensures var s' := Step(s, Acquire(k, save));
      && t in s'.mem.threads && s'.mem.threads[t].record.Some?
      && (!Committed(StatusOf(s'.mem, t)) <==> s.mem.threads[t].record.value.input != s.tasks[k].input)
  {
    assert HasRecord(s.mem, s.tasks[k].request);
    assert RecordOf(s.mem, s.tasks[k].request) == t;
  }

  // ---- complete runs ----

  ghost predicate Reachable(s: State) {
    exists es :: ValidRun(Init, es) && After(Init, es) == s
  }

  lemma {:induction false} RunExtends(s: State, es: seq<Event>, e: Event)
    requires ValidRun(s, es) && Enabled(After(s, es), e)
    ensures ValidRun(s, es + [e]) && After(s, es + [e]) == Step(After(s, es), e)
    decreases |es|
  {
    if es == [] {
      assert es + [e] == [e];
      assert ValidRun(Step(s, e), []);
    } else {
      RunExtends(Step(s, es[0]), es[1..], e);
      assert (es + [e])[1..] == es[1..] + [e];
    }
  }

  lemma Reach(s: State, e: Event)
    requires Reachable(s) && Enabled(s, e)
    ensures Reachable(Step(s, e))
  {
    var es :| ValidRun(Init, es) && After(Init, es) == s;
    RunExtends(Init, es, e);
  }

  lemma {:induction false} FollowRun(s: State, es: seq<Event>)
    requires Reachable(s) && ValidRun(s, es)
    ensures Reachable(After(s, es))
    decreases |es|
  {
    if es != [] {
      Reach(s, es[0]);
      FollowRun(Step(s, es[0]), es[1..]);
    }
  }

  lemma BadIsReachable(s: State, inputs: RequestId -> Input, bad: State -> bool)
    requires Reachable(s) && Leads(s, inputs, bad)
    ensures exists s' :: Reachable(s') && bad(s')
  {
    var es :| ValidRun(s, es) && AssumedRun(s, es, inputs) && bad(After(s, es));
    FollowRun(s, es);
  }

  const Original := Input("a", [])
  const Changed := Input("b", [])
  const Pictured := Input("a", ["p"])
  const Request := App(1)
  const Entry: ThreadId := 7

  // Every retry repeats the given input.
  function Always(input: Input): RequestId -> Input {
    (r: RequestId) => input
  }

  function Holding(input: Input, st: Status, receipt: Option<Receipt>): Store {
    Store(map[Entry := Thread(false, Some(Record(Request, input, st, receipt)))], None)
  }

  // One handler is admitted, the entry holds the record, and at most one task runs.
  function Stage(input: Input, st: Status, receipt: Option<Receipt>, tasks: map<TaskId, Task>, sends: seq<Send>): State
  {
    var mem := Holding(input, st, receipt);
    State(Gate(0, 0, 1, {Handler(0)}, tasks.Keys, {}), mem, mem, tasks, [Request], sends)
  }

  function Doing(input: Input, k: TaskId, pc: Pc): map<TaskId, Task> {
    map[k := Task(true, Request, input, pc)]
  }

  const Calling := NewSend(Request, Entry)
  const Arrived := Send(Request, Entry, Accepted, false)
  const Refused := Send(Request, Entry, Rejected, false)
  const FirstFailed := Some(Receipt(VerdictFailed, 0, true))

  lemma TheRecord(s: State, input: Input, st: Status, receipt: Option<Receipt>)
    requires s.mem == Holding(input, st, receipt)
    ensures HasRecord(s.mem, Request) && RecordOf(s.mem, Request) == Entry
  {
    assert Holds(s.mem, Entry, Request);
  }

  lemma Opened() returns (s: State)
    ensures Reachable(s) && s == Init.(gate := Gate(0, 0, 1, {Handler(0)}, {}, {}))
  {
    assert ValidRun(Init, []) && After(Init, []) == Init;
    Reach(Init, Other(Enter(Handler(0))));
    s := Step(Init, Other(Enter(Handler(0))));
  }

  lemma Begun(input: Input) returns (s: State)
    ensures Reachable(s)
    ensures var c := Store(map[], Some(Creation(Request, input, CreationPreparing)));
      s == State(Gate(0, 0, 1, {Handler(0)}, {0}, {}), c, c, Doing(input, 0, Queued), [], [])
  {
    var s1 := Opened();
    var c := Store(map[], Some(Creation(Request, input, CreationPreparing)));
    s := State(Gate(0, 0, 1, {Handler(0)}, {0}, {}), c, c, Doing(input, 0, Queued), [], []);
    Reach(s1, Submit(0, 0, Request, input, Saved));
    assert Step(s1, Submit(0, 0, Request, input, Saved)) == s;
  }

  lemma Started(input: Input) returns (s: State)
    ensures Reachable(s)
    ensures var c := Store(map[], Some(Creation(Request, input, CreationPreparing)));
      s == State(Gate(0, 0, 2, {Handler(0), Nested(0)}, {0}, {}), c, c, Doing(input, 0, Creating), [Request], [])
  {
    var s2 := Begun(input);
    var s3 := s2.(gate := Gate(0, 0, 2, {Handler(0), Nested(0)}, {0}, {}), tasks := Doing(input, 0, WaitingLock));
    Reach(s2, Begin(0, Saved));
    assert Step(s2, Begin(0, Saved)) == s3;
    s := s3.(tasks := Doing(input, 0, Creating), starts := [Request]);
    Reach(s3, Acquire(0, Saved));
    assert Step(s3, Acquire(0, Saved)) == s;
  }

  // The checkpoint of the new record is followed by another save, so that the disk drops
  // the reservation too.
  lemma Recorded(input: Input) returns (s: State)
    ensures Reachable(s) && s == Stage(input, Pending, None, Doing(input, 0, HasThread(Entry)), [])
  {
    var s4 := Started(input);
    var s5 := Step(s4, CreateDone(0, Created(Entry), Saved, Saved));
    Reach(s4, CreateDone(0, Created(Entry), Saved, Saved));
    s := Stage(input, Pending, None, Doing(input, 0, HasThread(Entry)), []);
    Reach(s5, Checkpoint(Saved));
    assert s5.mem == s.mem && s5.gate.open == {Handler(0)};
    assert Step(s5, Checkpoint(Saved)) == s;
  }

  // From the record to the provider call.
  lemma Entered(s: State, input: Input, k: TaskId, st: Status, receipt: Option<Receipt>, sends: seq<Send>)
    returns (s': State)
    requires Reachable(s) && s == Stage(input, st, receipt, Doing(input, k, HasThread(Entry)), sends)
    requires st in {Pending, Failed}
    ensures Reachable(s') && s' == Stage(input, Preparing, receipt, Doing(input, k, BeforeSend(Entry)), sends)
  {
    s' := Stage(input, Preparing, receipt, Doing(input, k, BeforeSend(Entry)), sends);
    Reach(s, EnterSend(k, Saved));
    assert WithStatus(s.mem, Entry, Preparing) == s'.mem;
    assert Step(s, EnterSend(k, Saved)) == s';
  }

  lemma Called(s: State, input: Input, k: TaskId, st: Status, receipt: Option<Receipt>, sends: seq<Send>)
    returns (s': State)
    requires Reachable(s) && s == Stage(input, st, receipt, Doing(input, k, HasThread(Entry)), sends)
    requires st in {Pending, Failed}
    ensures Reachable(s')
    ensures s' == Stage(input, Sending, receipt, Doing(input, k, InSend(Entry, |sends|)), sends + [Calling])
  {
    var s1 := Entered(s, input, k, st, receipt, sends);
    s' := Stage(input, Sending, receipt, Doing(input, k, InSend(Entry, |sends|)), sends + [Calling]);
    Reach(s1, PrepareDone(k, Proceed, Saved, Saved));
    assert WithStatus(s1.mem, Entry, Sending) == s'.mem;
    assert Step(s1, PrepareDone(k, Proceed, Saved, Saved)) == s';
  }

  lemma Returned(s: State, input: Input, k: TaskId, receipt: Option<Receipt>, sends: seq<Send>, last: Send,
                 result: SendResult) returns (s': State)
    requires Reachable(s)
    requires s == Stage(input, Sending, receipt, Doing(input, k, InSend(Entry, |sends|)), sends + [last])
    requires result.SendAccepted? || result.SendRejected?
    ensures Reachable(s')
    ensures s' == Stage(input, if result.SendAccepted? then Sent else Failed, receipt, map[],
                        sends + [Concluded(last, result)])
  {
    var st := if result.SendAccepted? then Sent else Failed;
    s' := Stage(input, st, receipt, map[], sends + [Concluded(last, result)]);
    Reach(s, SendDone(k, result, Saved));
    assert WithStatus(s.mem, Entry, st) == s'.mem;
    assert s.tasks - {k} == map[] && s.gate.tasks - {k} == {};
    assert s.sends[|sends| := Concluded(last, result)] == s'.sends;
    assert Step(s, SendDone(k, result, Saved)) == s';
  }

  lemma Delivered() returns (s: State)
    ensures Reachable(s) && s == Stage(Original, Sent, None, map[], [Arrived])
    ensures SentLive(s, Request)
  {
    s := Recorded(Original);
    s := Called(s, Original, 0, Pending, None, []);
    s := Returned(s, Original, 0, None, [], Calling, SendAccepted);
    assert Live(s.sends[0]);
  }

  // A retry with other input waits for its admission.
  lemma Mistaken(s: State, input: Input, st: Status, sends: seq<Send>) returns (s': State)
    requires Reachable(s) && s == Stage(input, st, None, map[], sends) && input != Changed
    ensures Reachable(s') && Poised(s', 0, 1, Entry, Always(input))
    ensures s' == Waiting(s, 1, Request, Changed)
  {
    TheRecord(s, input, st, None);
    var e := Submit(0, 1, Request, Changed, Saved);
    Reach(s, e);
    s' := Waiting(s, 1, Request, Changed);
    assert Step(s, e) == s';
  }

  // Send, retry with other input, retry with the first input: the message goes out twice.
  lemma MismatchedRetrySendsTwice()
    ensures exists s :: Reachable(s) && SentTwice(s)
  {
    var s := Delivered();
    var s' := Mistaken(s, Original, Sent, s.sends);
    StillSentLive(s, s', Request);
    MismatchBreaks(s', 0, 1, Entry, Always(Original));
    BadIsReachable(s', Always(Original), SentTwice);
  }

  // Within one call, a first try is answered with an error, and the receipt says so.
  lemma FirstTryFails(input: Input) returns (s: State)
    ensures Reachable(s)
    ensures s == Stage(input, Sending, FirstFailed, Doing(input, 0, InSend(Entry, 0)),
                       [Send(Request, Entry, InFlight(Some(VerdictFailed)), false)])
  {
    var s0 := Recorded(input);
    s0 := Called(s0, input, 0, Pending, None, []);
    var told := Send(Request, Entry, InFlight(Some(VerdictFailed)), false);
    s := Stage(input, Sending, FirstFailed, Doing(input, 0, InSend(Entry, 0)), [told]);
    Reach(s0, ReceiptStored(Entry, 0, VerdictFailed, true, Saved));
    assert WithReceipt(s0.mem, Entry, FirstFailed) == s.mem;
    assert s0.sends[0 := Told(s0.sends[0], VerdictFailed)] == s.sends;
    assert Step(s0, ReceiptStored(Entry, 0, VerdictFailed, true, Saved)) == s;
  }

  // A second try within the same call is accepted.
  lemma SecondTryArrives(input: Input) returns (s: State)
    ensures Reachable(s) && s == Stage(input, Sent, None, map[], [Arrived]) && SentLive(s, Request)
  {
    var s0 := FirstTryFails(input);
    var s1 := Stage(input, Sending, None, Doing(input, 0, InSend(Entry, 0)), [Calling]);
    Reach(s0, TryAgain(0, Saved));
    assert WithReceipt(s0.mem, Entry, None) == s1.mem;
    assert s0.sends[0 := Untold(s0.sends[0])] == s1.sends;
    assert Step(s0, TryAgain(0, Saved)) == s1;
    assert s1.sends == [] + [Calling];
    s := Returned(s1, input, 0, None, [], Calling, SendAccepted);
    assert Live(s.sends[0]);
  }

  // So such a call counts as sent: a mistaken retry and a correct one send it again, though no
  // Telegram resume could ever repeat the input.
  lemma RetriedCallSendsTwice()
    ensures exists s :: Reachable(s) && SentTwice(s)
  {
    var s := SecondTryArrives(Pictured);
    var s' := Mistaken(s, Pictured, Sent, s.sends);
    StillSentLive(s, s', Request);
    MismatchBreaks(s', 0, 1, Entry, Always(Pictured));
    BadIsReachable(s', Always(Pictured), SentTwice);
  }

  // The same when nothing at all had been sent at the time of the mistaken retry, though
  // every other retry repeats the input: a Telegram resume delivers before it gets the lock.
  lemma EarlyMismatchSendsTwice()
    ensures exists s, h, k ::
      && Reachable(s) && s.sends == [] && Enabled(s, Submit(h, k, Request, Changed, Saved))
      && Leads(Step(s, Submit(h, k, Request, Changed, Saved)), Always(Original), SentTwice)
  {
    var s0 := Recorded(Original);
    Reach(s0, CancelIdle(0));
    var s := Step(s0, CancelIdle(0));
    assert s0.tasks - {0} == map[] && s0.gate.tasks - {0} == {};
    assert s == Stage(Original, Pending, None, map[], []);
    var s' := Mistaken(s, Original, Pending, []);
    TheRecord(s, Original, Pending, None);
    assert Step(s, Submit(0, 1, Request, Changed, Saved)) == s';
    ResumeThenMismatch(s', 0, 1, Entry, Always(Original));
  }

  lemma Dropped() returns (s: State)
    ensures Reachable(s) && Quiet(s, 0) && s.mem == EmptyStore && s.tasks == map[]
    ensures s.starts == [Request] && SentLive(s, Request)
  {
    var s0 := Delivered();
    Reach(s0, ListPass(EmptyStore));
    s := Step(s0, ListPass(EmptyStore));
    assert Live(s.sends[0]);
  }

  // Without the record of a delivered message, one request id creates two sessions.
  lemma ForgottenThreadCreatesTwice()
    ensures exists s :: Reachable(s) && CreatedTwice(s)
  {
    var s := Dropped();
    LostRecordBreaks(s, 0, Request, Always(Original));
    BadIsReachable(s, Always(Original), CreatedTwice);
  }

  // And its message goes out twice, though every retry repeats the input.
  lemma ForgottenThreadSendsTwice()
    ensures exists s :: Reachable(s) && SentTwice(s)
  {
    var s := Dropped();
    LostRecordBreaks(s, 0, Request, Always(Original));
    BadIsReachable(s, Always(Original), SentTwice);
  }

  // The record of a new session could not be saved, so its reservation stays; a retry finds
  // the record, and waits.
  lemma RetryWaitsBesideReservation() returns (s: State)
    ensures Reachable(s) && Reserved(s.mem, Request) && HasRecord(s.mem, Request)
    ensures s.tasks == map[1 := Task(true, Request, Original, Queued)] && s.gate.open == {Handler(0)}
    ensures s.starts == [Request] && s.gate.now == s.gate.deadline == 0
  {
    var s0 := Started(Original);
    var e := CreateDone(0, Created(Entry), NotWritten, Saved);
    Reach(s0, e);
    var s1 := Step(s0, e);
    var created := Inserted(s0.mem, Entry, NewRecord(s0.tasks[0]));
    assert Holds(created, Entry, Request) && RecordOf(created, Request) == Entry;
    assert s1.mem == WithStatus(created, Entry, Failed) && s1.tasks == map[] && s1.gate.tasks == {};
    assert s1.gate.open == {Handler(0)};
    assert Holds(s1.mem, Entry, Request);
    Reach(s1, Submit(0, 1, Request, Original, Saved));
    s := Step(s1, Submit(0, 1, Request, Original, Saved));
  }

  // Its own reservation does not replace the record: the waiting retry creates again.
  lemma ReservedThreadCreatesTwice()
    ensures exists s, kept ::
      && Reachable(s) && Enabled(s, ListPass(kept)) && Reserved(kept, Request)
      && Leads(Step(s, ListPass(kept)), Always(Original), CreatedTwice)
  {
    var s := RetryWaitsBesideReservation();
    var kept := s.mem.(threads := map[]);
    CreationBreaks(Step(s, ListPass(kept)), 1, Always(Original));
    assert Enabled(s, ListPass(kept)) && Reserved(kept, Request);
  }

  // A retry with the same input finds the record.
  lemma Retried(s: State, k: TaskId, receipt: Option<Receipt>, sends: seq<Send>) returns (s': State)
    requires Reachable(s) && s == Stage(Original, Failed, receipt, map[], sends)
    ensures Reachable(s') && s' == Stage(Original, Failed, receipt, Doing(Original, k, HasThread(Entry)), sends)
  {
    TheRecord(s, Original, Failed, receipt);
    var s1 := Stage(Original, Failed, receipt, Doing(Original, k, Queued), sends);
    Reach(s, Submit(0, k, Request, Original, Saved));
    assert Step(s, Submit(0, k, Request, Original, Saved)) == s1;
    var s2 := s1.(gate := Gate(0, 0, 2, {Handler(0), Nested(k)}, {k}, {}), tasks := Doing(Original, k, WaitingLock));
    Reach(s1, Begin(k, Saved));
    assert Step(s1, Begin(k, Saved)) == s2;
    TheRecord(s2, Original, Failed, receipt);
    s' := Stage(Original, Failed, receipt, Doing(Original, k, HasThread(Entry)), sends);
    Reach(s2, Acquire(k, Saved));
    assert s2.gate.open - {Nested(k)} == {Handler(0)};
    assert Step(s2, Acquire(k, Saved)) == s';
  }

  // A recheck goes by a "failed", though a call that it does not settle was accepted.
  lemma FalseRecheck(s: State)
    requires Reachable(s) && s.mem == Holding(Original, Sent, FirstFailed) && s.tasks == map[]
    requires Handler(0) in s.gate.open && !Leased(s.gate) && |s.sends| > 0 && s.sends[|s.sends| - 1] == Arrived
    ensures exists s' :: Reachable(s') && SentTwice(s')
  {
    Reach(s, Recheck(Entry, Saved));
    var s' := Step(s, Recheck(Entry, Saved));
    assert s'.mem == WithStatus(s.mem, Entry, Failed) && s'.sends == s.sends && s'.tasks == map[];
    assert s'.mem.threads[Entry].record.value == Record(Request, Original, Failed, FirstFailed);
    assert SentLive(s', Request);
    LostStatusBreaks(s', 0, Entry, Request, Always(Original));
    BadIsReachable(s', Always(Original), SentTwice);
  }

  // The "failed" of a first attempt is still stored when a recheck follows a second one.
  lemma StaleReceiptSendsTwice()
    ensures exists s :: Reachable(s) && SentTwice(s)
  {
    var s := FirstTryFails(Original);
    var told := Send(Request, Entry, InFlight(Some(VerdictFailed)), false);
    assert s.sends == [] + [told];
    s := Returned(s, Original, 0, FirstFailed, [], told, SendRejected);
    assert s.sends == [Refused];
    s := Retried(s, 1, FirstFailed, [Refused]);
    s := Called(s, Original, 1, Failed, FirstFailed, [Refused]);
    s := Returned(s, Original, 1, FirstFailed, [Refused], Calling, SendAccepted);
    assert s.sends[1] == Arrived;
    FalseRecheck(s);
  }

  // The thread is archived when the second try within a call begins, so the receipt of the
  // first is not cleared; the call is accepted, and the thread comes back.
  lemma ArchivedMeanwhile() returns (s: State)
    ensures Reachable(s) && s == Stage(Original, Sent, FirstFailed, map[], [Arrived])
  {
    var s0 := FirstTryFails(Original);
    Reach(s0, SetArchived(Entry, true));
    var s1 := Step(s0, SetArchived(Entry, true));
    Reach(s1, TryAgain(0, Saved));
    var s2 := Step(s1, TryAgain(0, Saved));
    assert s2.mem == s1.mem && s2.sends == [Calling];
    Reach(s2, SetArchived(Entry, false));
    var s3 := Step(s2, SetArchived(Entry, false));
    assert s3.mem == s0.mem;
    assert s3 == Stage(Original, Sending, FirstFailed, Doing(Original, 0, InSend(Entry, 0)), [] + [Calling]);
    s := Returned(s3, Original, 0, FirstFailed, [], Calling, SendAccepted);
  }

  // A recheck then goes by a "failed" from within the very call that was accepted.
  lemma ArchivedMeanwhileSendsTwice()
    ensures exists s :: Reachable(s) && SentTwice(s)
  {
    var s := ArchivedMeanwhile();
    FalseRecheck(s);
  }
}
