/**
 Messages to an existing session: the latest attempt is kept in `send_recovery`, one
 record per thread, and carried through preparing, sending and the outcome.
*/
module FollowUpSend {
  import opened Prelude

  type RequestId = nat
  type TaskId = nat

  datatype SendRecord = SendRecord(request: RequestId, input: string, status: Status)

  datatype Pc =
    | Handling          // the handler awaits the gateway, the adapter or prepare_send
    | Scheduled         // execute_send has been created
    | InSend(i: nat)    // execute_send awaits message_hooks.send, logged as sends[i]

  // An attempt without a request id keeps no record.
  datatype Attempt = Attempt(request: Option<RequestId>, pc: Pc)

  datatype State = State(
    mem: Option<SendRecord>,
    disk: Option<SendRecord>,
    first: Option<Status>,             // the status of the thread's first message
    tasks: map<TaskId, Attempt>,
    sends: seq<Option<RequestId>>,     // calls of message_hooks.send, oldest first
    accepted: set<RequestId>,          // requests whose call returned
    confirmed: set<RequestId>,         // requests a receipt reported as sent
    refuted: set<RequestId>)           // requests a receipt reported as failed

  datatype Event =
    | Submit(task: TaskId, request: Option<RequestId>, input: string, sessionTab: bool, save: Save)
    | HandlerFails(task: TaskId, save: Save)
    | HandlerPasses(task: TaskId)
    | StartSend(task: TaskId, valid: bool, save: Save, save2: Save)
    | SendDone(task: TaskId, delivered: bool, save: Save)
    | Abandon(task: TaskId)
    | Recheck(sent: bool, save: Save)
    | FirstMessage(first: Option<Status>)
    | Relisted(first: Option<Status>)
    | Checkpoint(save: Save)
    | Crash(archived: bool, save: Save)

  const Init := State(None, None, None, map[], [], {}, {}, {})

  predicate Unresolved(st: Status) {
    st == Preparing || st == Sending || st == Unknown
  }

  function Write(disk: Option<SendRecord>, mem: Option<SendRecord>, save: Save): Option<SendRecord> {
    if save == NotWritten then disk else mem
  }

  // checkpoint_send_recovery; a failed save of "preparing" or "sending" turns to "failed".
  function Marked(s: State, st: Status, save: Save): State
    requires s.mem.Some?
  {
    var mem := Some(s.mem.value.(status := st));
    s.(disk := Write(s.disk, mem, save),
       mem := if save != Saved && st in {Preparing, Sending} then Some(s.mem.value.(status := Failed)) else mem)
  }

  // The handler's own checkpoint: only while the record is still the attempt's.
  function MarkedBy(s: State, k: TaskId, st: Status, save: Save): State
    requires k in s.tasks
  {
    if Owns(s, s.tasks[k].request) then Marked(s, st, save) else s
  }

  predicate Owns(s: State, request: Option<RequestId>) {
    request.Some? && s.mem.Some? && s.mem.value.request == request.value
  }

  function Ended(s: State, k: TaskId): State {
    s.(tasks := s.tasks - {k})
  }

  // Whether the checks at the head of the handler let a new attempt through.
  predicate Admits(s: State, request: Option<RequestId>, sessionTab: bool) {
    && (sessionTab ==> !(s.first.Some? && (s.first.value == Pending || Unresolved(s.first.value))))
    && ((sessionTab || request.Some?) && s.mem.Some? && Unresolved(s.mem.value.status) ==> Owns(s, request))
    && !Owns(s, request)
  }

  function SubmitStep(s: State, k: TaskId, request: Option<RequestId>, input: string, sessionTab: bool,
                      save: Save): State
  {
    if !Admits(s, request, sessionTab) then s
    else if request.None? then s.(tasks := s.tasks[k := Attempt(None, Handling)])
    else
      var s' := Marked(s.(mem := Some(SendRecord(request.value, input, Preparing))), Preparing, save);
      if save == Saved then s'.(tasks := s.tasks[k := Attempt(request, Handling)]) else s'
  }

  // execute_send up to the provider call.
  function StartStep(s: State, k: TaskId, valid: bool, save: Save, save2: Save): State
    requires k in s.tasks
  {
    if !valid then Ended(MarkedBy(s, k, Failed, save2), k)
    else
      var s' := MarkedBy(s, k, Sending, save);
      if save != Saved && Owns(s, s.tasks[k].request) then Ended(MarkedBy(s', k, Failed, save2), k)
      else s'.(sends := s.sends + [s.tasks[k].request],
               tasks := s.tasks[k := s.tasks[k].(pc := InSend(|s.sends|))])
  }

  // execute_send after the call has returned or raised.
  function SendStep(s: State, k: TaskId, delivered: bool, save: Save): State
    requires k in s.tasks
  {
    var request := s.tasks[k].request;
    var s1 := if delivered && request.Some? then s.(accepted := s.accepted + {request.value}) else s;
    Ended(MarkedBy(s1, k, if delivered then Sent else Unknown, save), k)
  }

  function Restored(r: Option<SendRecord>): Option<SendRecord> {
    if r.None? then r
    else match r.value.status
         case Preparing => Some(r.value.(status := Failed))
         case Sending => Some(r.value.(status := Unknown))
         case _ => r
  }

  predicate Enabled(s: State, e: Event) {
    match e
    case Submit(k, request, _, sessionTab, _) => k !in s.tasks && (request.Some? ==> sessionTab)
    case HandlerFails(k, _) => k in s.tasks && s.tasks[k].pc.Handling?
    case HandlerPasses(k) => k in s.tasks && s.tasks[k].pc.Handling?
    case StartSend(k, _, _, _) => k in s.tasks && s.tasks[k].pc.Scheduled?
    case SendDone(k, _, _) => k in s.tasks && s.tasks[k].pc.InSend?
    case Abandon(k) => k in s.tasks && !s.tasks[k].pc.InSend?
    case Recheck(_, _) => s.mem.Some?
    case _ => true
  }

  function Step(s: State, e: Event): State
    requires Enabled(s, e)
  {
    match e
    case Submit(k, request, input, sessionTab, save) => SubmitStep(s, k, request, input, sessionTab, save)
    case HandlerFails(k, save) => Ended(MarkedBy(s, k, Failed, save), k)
    case HandlerPasses(k) => s.(tasks := s.tasks[k := s.tasks[k].(pc := Scheduled)])
    case StartSend(k, valid, save, save2) => StartStep(s, k, valid, save, save2)
    case SendDone(k, delivered, save) => SendStep(s, k, delivered, save)
    case Abandon(k) => Ended(s, k)
    case Recheck(sent, save) =>
      if s.mem.value.status in {Pending, Preparing, Sending} then s
      else Marked(s.(confirmed := if sent then s.confirmed + {s.mem.value.request} else s.confirmed,
                     refuted := if sent then s.refuted else s.refuted + {s.mem.value.request}),
                  if sent then Sent else Failed, save)
    case FirstMessage(first) => s.(first := first)
    // A pass has dropped the thread, and it is listed again, without a record.  Attempts on the
    // dropped one are rejected before the provider call, or note their outcome where it is lost.
    case Relisted(first) => s.(mem := None, first := first, tasks := map[])
    case Checkpoint(save) => s.(disk := Write(s.disk, s.mem, save))
    case Crash(archived, save) =>
      if archived then s.(mem := s.disk, tasks := map[])
      else s.(mem := Restored(s.disk), disk := Write(s.disk, Restored(s.disk), save), tasks := map[])
  }

  ghost predicate ValidRun(s: State, es: seq<Event>)
    decreases |es|
  {
    es == [] || (Enabled(s, es[0]) && ValidRun(Step(s, es[0]), es[1..]))
  }

  ghost function After(s: State, es: seq<Event>): State
    requires ValidRun(s, es)
    decreases |es|
  {
    if es == [] then s else After(Step(s, es[0]), es[1..])
  }

  // ---- what every run keeps ----

  // The client's promise: an id that reached the provider is not used for a new attempt.
  predicate FreshId(s: State, e: Event) {
    e.Submit? && e.request.Some? ==> Owns(s, e.request) || e.request !in s.sends
  }

  ghost predicate FreshRun(s: State, es: seq<Event>)
    requires ValidRun(s, es)
    decreases |es|
  {
    es == [] || (FreshId(s, es[0]) && FreshRun(Step(s, es[0]), es[1..]))
  }

  predicate SentOnce(sends: seq<Option<RequestId>>) {
    forall i, j :: 0 <= i < j < |sends| && sends[i].Some? ==> sends[i] != sends[j]
  }

  // A record whose message entered the provider says so, unless a receipt refuted it.
  predicate Honest(r: Option<SendRecord>, s: State) {
    r.Some? && Some(r.value.request) in s.sends ==>
      r.value.status in {Sending, Unknown, Sent} || (r.value.status == Failed && r.value.request in s.refuted)
  }

  predicate TaskOk(s: State, k: TaskId)
    requires k in s.tasks
  {
    var a := s.tasks[k];
    a.request.Some? ==>
      && Owns(s, a.request)
      && (if a.pc.InSend? then s.mem.value.status == Sending && s.disk == s.mem
          else s.mem.value.status == Preparing && a.request !in s.sends)
  }

  // At most one attempt has an id, and its id has not been sent before.
  predicate Once(s: State) {
    && SentOnce(s.sends)
    && (forall k <- s.tasks :: TaskOk(s, k))
    && (forall k, l :: k in s.tasks && l in s.tasks && k != l ==> s.tasks[k].request.None? || s.tasks[l].request.None?)
  }

  predicate Inv(s: State) {
    Once(s) && Honest(s.mem, s) && Honest(s.disk, s)
  }

  // An attempt with an id keeps its record unresolved, so a new one finds no other.
  lemma AdmittedIsAlone(s: State, request: Option<RequestId>)
    requires Once(s) && Admits(s, request, true) && request.Some?
    ensures forall l <- s.tasks :: s.tasks[l].request.None?
  {
    forall l <- s.tasks ensures s.tasks[l].request.None? {
      assert TaskOk(s, l);
    }
  }

  lemma SubmitKeepsOnce(s: State, k: TaskId, request: Option<RequestId>, input: string, sessionTab: bool, save: Save)
    requires Once(s) && k !in s.tasks && (request.Some? ==> sessionTab)
    requires request.Some? ==> Owns(s, request) || request !in s.sends || save != Saved
    ensures Once(SubmitStep(s, k, request, input, sessionTab, save))
  {
    if Admits(s, request, sessionTab) && request.Some? { AdmittedIsAlone(s, request); }
  }

  // Only the attempt with an id is affected by its checkpoints, and there is one at most.
  lemma OthersKeep(s: State, s': State, k: TaskId)
    requires Once(s) && k in s.tasks
    requires forall l <- s'.tasks :: l != k ==> l in s.tasks && s'.tasks[l] == s.tasks[l]
    requires s.tasks[k].request.None? ==> s'.mem == s.mem && s'.disk == s.disk
    requires forall l <- s'.tasks :: l != k && s.tasks[l].request.Some? && s.tasks[l].request in s'.sends ==>
      s.tasks[l].request in s.sends
    ensures forall l <- s'.tasks :: l != k ==> TaskOk(s', l)
  {
    forall l <- s'.tasks | l != k ensures TaskOk(s', l) {
      assert TaskOk(s, l);
    }
  }

  lemma TaskKeepsOnce(s: State, e: Event)
    requires Once(s) && Enabled(s, e)
    requires e.HandlerFails? || e.HandlerPasses? || e.StartSend? || e.SendDone? || e.Abandon?
    ensures Once(Step(s, e))
  {
    assert TaskOk(s, e.task);
    OthersKeep(s, Step(s, e), e.task);
  }

  lemma SurroundingsKeepOnce(s: State, e: Event)
    requires Once(s) && Enabled(s, e) && (e.FirstMessage? || e.Relisted? || e.Recheck? || e.Checkpoint? || e.Crash?)
    ensures Once(Step(s, e))
  {
    var s' := Step(s, e);
    forall k <- s'.tasks ensures TaskOk(s', k) {
      assert TaskOk(s, k);
    }
  }

  lemma StepKeepsOnce(s: State, e: Event)
    requires Once(s) && Enabled(s, e) && FreshId(s, e)
    ensures Once(Step(s, e))
  {
    match e
    case Submit(k, request, input, sessionTab, save) => SubmitKeepsOnce(s, k, request, input, sessionTab, save);
    case FirstMessage(_) | Relisted(_) | Recheck(_, _) | Checkpoint(_) | Crash(_, _) => SurroundingsKeepOnce(s, e);
    case _ => TaskKeepsOnce(s, e);
  }

  lemma StartKeepsHonest(s: State, k: TaskId, valid: bool, save: Save, save2: Save)
    requires Inv(s) && k in s.tasks && s.tasks[k].pc.Scheduled?
    ensures var s' := StartStep(s, k, valid, save, save2); Honest(s'.mem, s') && Honest(s'.disk, s')
  {
    assert TaskOk(s, k);
  }

  lemma EndKeepsHonest(s: State, e: Event)
    requires Inv(s) && Enabled(s, e) && (e.HandlerFails? || e.HandlerPasses? || e.SendDone? || e.Abandon?)
    ensures var s' := Step(s, e); Honest(s'.mem, s') && Honest(s'.disk, s')
  {
    assert TaskOk(s, e.task);
  }

  lemma StepKeeps(s: State, e: Event)
    requires Inv(s) && Enabled(s, e) && FreshId(s, e)
    ensures Inv(Step(s, e))
  {
    StepKeepsOnce(s, e);
    if e.StartSend? {
      StartKeepsHonest(s, e.task, e.valid, e.save, e.save2);
    } else if e.HandlerFails? || e.HandlerPasses? || e.SendDone? || e.Abandon? {
      EndKeepsHonest(s, e);
    }
  }

  lemma {:induction false} RunKeeps(s: State, es: seq<Event>)
    requires ValidRun(s, es) && FreshRun(s, es) && Inv(s)
    ensures Inv(After(s, es))
    decreases |es|
  {
    if es != [] {
      StepKeeps(s, es[0]);
      RunKeeps(Step(s, es[0]), es[1..]);
    }
  }

  // With fresh ids, each id enters the provider at most once ever, and from then on its
  // record is never "failed" or "preparing", short of a receipt.
  lemma EachIdSentOnce(es: seq<Event>)
    requires ValidRun(Init, es) && FreshRun(Init, es)
    ensures var s := After(Init, es); SentOnce(s.sends) && Honest(s.mem, s) && Honest(s.disk, s)
  {
    RunKeeps(Init, es);
  }

  // ---- a record that says "sent" ----

  // The call for it returned, or a receipt said that it was sent.
  predicate SaysTrue(r: Option<SendRecord>, s: State) {
    r.Some? && r.value.status == Sent ==> r.value.request in s.accepted + s.confirmed
  }

  predicate Truthful(s: State) {
    SaysTrue(s.mem, s) && SaysTrue(s.disk, s)
  }

  lemma StepIsTruthful(s: State, e: Event)
    requires Truthful(s) && Enabled(s, e)
    ensures Truthful(Step(s, e))
  {
  }

  lemma {:induction false} RunIsTruthful(s: State, es: seq<Event>)
    requires Truthful(s) && ValidRun(s, es)
    ensures Truthful(After(s, es))
    decreases |es|
  {
    if es != [] {
      StepIsTruthful(s, es[0]);
      RunIsTruthful(Step(s, es[0]), es[1..]);
    }
  }

  // A call that returned was made.
  predicate CallsKnown(s: State) {
    && (forall id <- s.accepted :: Some(id) in s.sends)
    && (forall k <- s.tasks :: s.tasks[k].pc.InSend? ==> s.tasks[k].request in s.sends)
  }

  lemma {:induction false} CallsStayKnown(s: State, es: seq<Event>)
    requires CallsKnown(s) && ValidRun(s, es)
    ensures CallsKnown(After(s, es))
    decreases |es|
  {
    if es != [] {
      CallsStayKnown(Step(s, es[0]), es[1..]);
    }
  }

  // Over every run, whatever ids are used: a record that says "sent", in memory or on disk, is
  // one whose call was made and returned, or that a receipt confirmed.
  lemma SentIsTrue(es: seq<Event>, r: SendRecord)
    requires ValidRun(Init, es) && Some(r) in {After(Init, es).mem, After(Init, es).disk} && r.status == Sent
    ensures var s := After(Init, es);
      (Some(r.request) in s.sends && r.request in s.accepted) || r.request in s.confirmed
  {
    RunIsTruthful(Init, es);
    CallsStayKnown(Init, es);
  }

  // ---- what was not sent can still be sent ----

  // The call for it was made and returned, and the record says so.
  predicate HasArrived(s: State, id: RequestId) {
    Some(id) in s.sends && id in s.accepted && Owns(s, Some(id)) && s.mem.value.status == Sent
  }

  // In some continuation with fresh ids, a message with the id arrives.
  ghost predicate CanArrive(s: State, id: RequestId) {
    exists es :: ValidRun(s, es) && FreshRun(s, es) && HasArrived(After(s, es), id)
  }

  lemma ArrivesLater(s: State, e: Event, id: RequestId)
    requires Enabled(s, e) && FreshId(s, e) && CanArrive(Step(s, e), id)
    ensures CanArrive(s, id)
  {
    var rest :| ValidRun(Step(s, e), rest) && FreshRun(Step(s, e), rest) && HasArrived(After(Step(s, e), rest), id);
    var es := [e] + rest;
    assert es[0] == e && es[1..] == rest;
    assert ValidRun(s, es) && FreshRun(s, es);
    assert After(s, es) == After(Step(s, e), rest);
  }

  lemma CallArrives(s: State, k: TaskId, id: RequestId)
    requires k in s.tasks && s.tasks[k].pc.InSend? && s.tasks[k].request == Some(id) && Owns(s, Some(id))
    requires Some(id) in s.sends
    ensures CanArrive(s, id)
  {
    var s' := Step(s, SendDone(k, true, Saved));
    assert ValidRun(s', []) && FreshRun(s', []) && After(s', []) == s';
    ArrivesLater(s, SendDone(k, true, Saved), id);
  }

  lemma AttemptArrives(s: State, k: TaskId, id: RequestId)
    requires k in s.tasks && s.tasks[k] == Attempt(Some(id), Handling) && Owns(s, Some(id))
    ensures CanArrive(s, id)
  {
    var s1 := Step(s, HandlerPasses(k));
    var s2 := Step(s1, StartSend(k, true, Saved, Saved));
    assert s2.sends[|s.sends|] == Some(id);
    CallArrives(s2, k, id);
    ArrivesLater(s1, StartSend(k, true, Saved, Saved), id);
    ArrivesLater(s, HandlerPasses(k), id);
  }

  // The last attempt and the first message are settled, and the id is new.
  predicate OpenTo(s: State, id: RequestId) {
    && (s.mem.Some? ==> s.mem.value.status in {Pending, Sent, Failed} && s.mem.value.request != id)
    && (s.first.Some? ==> s.first.value in {Sent, Failed})
    && Some(id) !in s.sends
  }

  lemma OpenCanArrive(s: State, id: RequestId)
    requires OpenTo(s, id)
    ensures CanArrive(s, id)
  {
    var k := UnusedId(s.tasks.Keys);
    var e := Submit(k, Some(id), "", true, Saved);
    var s' := Step(s, e);
    assert s'.tasks[k] == Attempt(Some(id), Handling) && Owns(s', Some(id));
    AttemptArrives(s', k, id);
    ArrivesLater(s, e, id);
  }

  // An attempt that arrived, or gave up before the provider was called, keeps no other out.
  lemma EndedCanBeFollowed(s: State, e: Event, id: RequestId)
    requires Inv(s) && Enabled(s, e) && (s.first.Some? ==> s.first.value in {Sent, Failed})
    requires e.HandlerFails? || (e.StartSend? && Step(s, e).sends == s.sends) || (e.SendDone? && e.delivered)
    requires s.tasks[e.task].request.Some? && s.tasks[e.task].request != Some(id) && Some(id) !in s.sends
    ensures CanArrive(Step(s, e), id)
  {
    assert TaskOk(s, e.task);
    OpenCanArrive(Step(s, e), id);
  }

  // Nor does one that could not be saved when it was submitted.
  lemma UnsavedCanBeFollowed(s: State, k: TaskId, lost: RequestId, input: string, save: Save, id: RequestId)
    requires k !in s.tasks && save != Saved && id != lost && OpenTo(s, id)
    ensures CanArrive(Step(s, Submit(k, Some(lost), input, true, save)), id)
  {
    OpenCanArrive(Step(s, Submit(k, Some(lost), input, true, save)), id);
  }

  // A recheck takes the receipt at its word, and leaves an attempt under way alone.
  lemma RecheckTells(s: State, sent: bool, save: Save)
    requires s.mem.Some?
    ensures var s' := Step(s, Recheck(sent, save)); var st := s.mem.value.status;
      if st in {Pending, Preparing, Sending} then s' == s
      else s'.mem == Some(s.mem.value.(status := if sent then Sent else Failed))
  {
  }

  // Nor does one that a restart cut off before "sending" was saved.
  lemma RestartedCanBeFollowed(s: State, save: Save, id: RequestId)
    requires s.disk.Some? ==> s.disk.value.status !in {Sending, Unknown} && s.disk.value.request != id
    requires (s.first.Some? ==> s.first.value in {Sent, Failed}) && Some(id) !in s.sends
    ensures CanArrive(Step(s, Crash(false, save)), id)
  {
    OpenCanArrive(Step(s, Crash(false, save)), id);
  }

  // A new attempt with an id starts exactly when the previous attempt and the first
  // message are settled, the id is not the recorded one, and its input could be saved.
  lemma AdmittedExactlyWhenSettled(s: State, k: TaskId, id: RequestId, input: string, save: Save)
    requires k !in s.tasks
    ensures k in Step(s, Submit(k, Some(id), input, true, save)).tasks <==>
      && (s.mem.Some? ==> s.mem.value.status !in {Preparing, Sending, Unknown} && s.mem.value.request != id)
      && (s.first.Some? ==> s.first.value in {Sent, Failed})
      && save == Saved
  {
  }

  // An attempt without an id is refused only by the session tab, and only over something open.
  lemma UnidentifiedAdmittedExactly(s: State, k: TaskId, input: string, sessionTab: bool, save: Save)
    requires k !in s.tasks
    ensures k in Step(s, Submit(k, None, input, sessionTab, save)).tasks <==>
      sessionTab ==>
        && (s.mem.Some? ==> s.mem.value.status !in {Preparing, Sending, Unknown})
        && (s.first.Some? ==> s.first.value in {Sent, Failed})
  {
  }

  // The provider is called exactly when the target is still valid, and an attempt that keeps a
  // record could note that it sends.
  lemma CalledExactly(s: State, k: TaskId, valid: bool, save: Save, save2: Save)
    requires Enabled(s, StartSend(k, valid, save, save2))
    ensures var s' := Step(s, StartSend(k, valid, save, save2)); var request := s.tasks[k].request;
      if valid && (save == Saved || !Owns(s, request)) then s'.sends == s.sends + [request]
      else s'.sends == s.sends && k !in s'.tasks
  {
  }

  // Once the provider has been entered, the task's last word is "sent" or "unknown", and
  // until then both copies of the record say "sending".
  lemma LastWordIsNotFailed(es: seq<Event>, k: TaskId, delivered: bool, save: Save)
    requires ValidRun(Init, es) && FreshRun(Init, es)
    requires Enabled(After(Init, es), SendDone(k, delivered, save)) && After(Init, es).tasks[k].request.Some?
    ensures var s := After(Init, es); var s' := Step(s, SendDone(k, delivered, save));
      && Owns(s, s.tasks[k].request) && s.mem.value.status == Sending && s.disk == s.mem
      && Owns(s', s.tasks[k].request) && s'.mem.value.status == (if delivered then Sent else Unknown)
      && s'.disk in {s.disk, s'.mem}
  {
    RunKeeps(Init, es);
    assert TaskOk(After(Init, es), k);
  }

  // ---- the promise needs fresh ids ----

  // Some continuation in which all further ids are fresh sends an id twice.
  ghost predicate CanRepeat(s: State) {
    exists es :: ValidRun(s, es) && FreshRun(s, es) && !SentOnce(After(s, es).sends)
  }

  lemma {:induction false} OnceStays(s: State, es: seq<Event>)
    requires ValidRun(s, es) && FreshRun(s, es) && Once(s)
    ensures Once(After(s, es))
    decreases |es|
  {
    if es != [] {
      StepKeepsOnce(s, es[0]);
      OnceStays(Step(s, es[0]), es[1..]);
    }
  }

  lemma RepeatsLater(s: State, e: Event)
    requires Enabled(s, e) && FreshId(s, e) && CanRepeat(Step(s, e))
    ensures CanRepeat(s)
  {
    var rest :| ValidRun(Step(s, e), rest) && FreshRun(Step(s, e), rest) && !SentOnce(After(Step(s, e), rest).sends);
    var es := [e] + rest;
    assert es[0] == e && es[1..] == rest;
    assert ValidRun(s, es) && FreshRun(s, es);
    assert After(s, es) == After(Step(s, e), rest);
  }

  // An attempt whose id was sent before goes on to the provider.
  lemma AdmittedRepeats(s: State, k: TaskId)
    requires k in s.tasks && s.tasks[k].pc.Handling? && s.tasks[k].request.Some? && s.tasks[k].request in s.sends
    ensures CanRepeat(s)
  {
    var s1 := Step(s, HandlerPasses(k));
    var s2 := Step(s1, StartSend(k, true, Saved, Saved));
    var i :| 0 <= i < |s.sends| && s.sends[i] == s.tasks[k].request;
    assert s2.sends == s.sends + [s.tasks[k].request];
    assert s2.sends[i] == s2.sends[|s.sends|];
    assert ValidRun(s2, []) && FreshRun(s2, []) && After(s2, []) == s2;
    RepeatsLater(s1, StartSend(k, true, Saved, Saved));
    RepeatsLater(s, HandlerPasses(k));
  }

  // An id that reached the provider is sent again, in some continuation with fresh ids, if
  // and only if a new attempt with it is admitted: everything before is settled, it is not
  // the recorded id, and the attempt could be saved.
  lemma ReusedIdRepeatsExactly(s: State, k: TaskId, id: RequestId, input: string, save: Save)
    requires Inv(s) && k !in s.tasks && Some(id) in s.sends
    ensures CanRepeat(Step(s, Submit(k, Some(id), input, true, save))) <==>
      && (s.mem.Some? ==> s.mem.value.status !in {Preparing, Sending, Unknown} && s.mem.value.request != id)
      && (s.first.Some? ==> s.first.value in {Sent, Failed})
      && save == Saved
  {
    var s' := Step(s, Submit(k, Some(id), input, true, save));
    AdmittedExactlyWhenSettled(s, k, id, input, save);
    if k in s'.tasks {
      AdmittedRepeats(s', k);
    } else {
      if save != Saved { SubmitKeepsOnce(s, k, Some(id), input, true, save); }
      forall es | ValidRun(s', es) && FreshRun(s', es) ensures SentOnce(After(s', es).sends) {
        OnceStays(s', es);
      }
    }
  }

  ghost predicate Reachable(s: State) {
    exists es :: ValidRun(Init, es) && After(Init, es) == s
  }

  lemma {:induction false} RunExtends(s: State, es: seq<Event>, e: Event)
    requires ValidRun(s, es) && Enabled(After(s, es), e)
    ensures ValidRun(s, es + [e]) && After(s, es + [e]) == Step(After(s, es), e)
    decreases |es|
  {
    if es == [] {
      assert es + [e] == [e];
      assert ValidRun(Step(s, e), []);
    } else {
      RunExtends(Step(s, es[0]), es[1..], e);
      assert (es + [e])[1..] == es[1..] + [e];
    }
  }

  lemma Reach(s: State, e: Event) returns (s': State)
    requires Reachable(s) && Enabled(s, e)
    ensures s' == Step(s, e) && Reachable(s')
  {
    var es :| ValidRun(Init, es) && After(Init, es) == s;
    RunExtends(Init, es, e);
    s' := Step(s, e);
  }

  function Idle(r: Option<SendRecord>, sends: seq<Option<RequestId>>, accepted: set<RequestId>): State {
    State(r, r, None, map[], sends, accepted, {}, {})
  }

  // When the last attempt is settled, any other id goes through, old or new.
  lemma AnyOtherIdGoesThrough(s: State, r: Option<SendRecord>, sends: seq<Option<RequestId>>, id: RequestId)
    returns (s': State)
    requires Reachable(s) && s == Idle(r, sends, s.accepted)
    requires r.Some? ==> r.value.status in {Sent, Failed} && r.value.request != id
    ensures Reachable(s') && s' == Idle(Some(SendRecord(id, "", Sent)), sends + [Some(id)], s'.accepted)
  {
    s' := Reach(s, Submit(0, Some(id), "", true, Saved));
    s' := Reach(s', HandlerPasses(0));
    s' := Reach(s', StartSend(0, true, Saved, Saved));
    assert s'.tasks == map[0 := Attempt(Some(id), InSend(|sends|))];
    s' := Reach(s', SendDone(0, true, Saved));
  }

  lemma ReusedIdSendsTwice()
    ensures exists s :: Reachable(s) && !SentOnce(s.sends)
  {
    assert ValidRun(Init, []) && After(Init, []) == Init;
    var s := AnyOtherIdGoesThrough(Init, None, [], 1);
    s := AnyOtherIdGoesThrough(s, s.mem, s.sends, 2);
    s := AnyOtherIdGoesThrough(s, s.mem, s.sends, 1);
    assert s.sends[0] == s.sends[2] == Some(1);
  }

  lemma Underway() returns (s: State)
    ensures Reachable(s)
    ensures var r := Some(SendRecord(1, "", Sending));
      s == State(r, r, None, map[0 := Attempt(Some(1), InSend(0))], [Some(1)], {}, {}, {})
  {
    assert ValidRun(Init, []) && After(Init, []) == Init;
    s := Reach(Init, Submit(0, Some(1), "", true, Saved));
    s := Reach(s, HandlerPasses(0));
    s := Reach(s, StartSend(0, true, Saved, Saved));
  }

  // A pass that drops the thread drops the record with it, so a new attempt is admitted while
  // the outcome of the last one is open.
  lemma ForgottenAttemptIsFollowed()
    ensures exists s: State, k: TaskId ::
      && Reachable(s) && k in s.tasks && s.tasks[k].pc.InSend? && Owns(s, s.tasks[k].request)
      && !Admits(s, Some(2), true) && Admits(Step(s, Relisted(None)), Some(2), true)
  {
    var s := Underway();
    assert 0 in s.tasks && Owns(s, s.tasks[0].request);
  }

  // ---- the handler and execute_send, updating the record in place ----

  class SendHandler {
    var sendRecovery: Option<SendRecord>
    var disk: Option<SendRecord>
    var firstStatus: Option<Status>
    var tasks: map<TaskId, Attempt>
    var sends: seq<Option<RequestId>>
    // what became of the calls, and what receipts said of them
    ghost var accepted: set<RequestId>
    ghost var confirmed: set<RequestId>
    ghost var refuted: set<RequestId>

    ghost function Now(): State
      reads this
    {
      State(sendRecovery, disk, firstStatus, tasks, sends, accepted, confirmed, refuted)
    }

    // The stretch of code for e may run, in a state that any run can have led to.
    ghost predicate Ready(e: Event)
      reads this
    {
      Inv(Now()) && Enabled(Now(), e) && FreshId(Now(), e)
    }

    constructor ()
      ensures Now() == Init && Inv(Now())
    {
      sendRecovery, disk, firstStatus := None, None, None;
      tasks, sends, accepted, confirmed, refuted := map[], [], {}, {}, {};
    }

    // checkpoint_send_recovery; false is the exception it raises.
    method CheckpointSendRecovery(status: Status, outcome: Save) returns (ok: bool)
      requires sendRecovery.Some?
      modifies this`sendRecovery, this`disk
      ensures Now() == Marked(old(Now()), status, outcome)
      ensures ok == (outcome == Saved || status !in {Preparing, Sending})
    {
      sendRecovery := Some(sendRecovery.value.(status := status));
      if outcome != NotWritten {
        disk := sendRecovery;
      }
      ok := true;
      if outcome != Saved && status in {Preparing, Sending} {
        sendRecovery := Some(sendRecovery.value.(status := Failed));
        ok := false;
      }
    }

    // The local `checkpoint` of the handler.
    method CheckpointAttempt(k: TaskId, status: Status, outcome: Save) returns (ok: bool)
      requires k in tasks
      modifies this`sendRecovery, this`disk
      ensures Now() == MarkedBy(old(Now()), k, status, outcome)
      ensures ok == (outcome == Saved || status !in {Preparing, Sending} || !Owns(old(Now()), old(tasks[k]).request))
    {
      ok := true;
      var request := tasks[k].request;
      if request.Some? && sendRecovery.Some? && sendRecovery.value.request == request.value {
        ok := CheckpointSendRecovery(status, outcome);
      }
    }

    // _handle_admitted_send_message up to the gateway.
    method HandleSendMessage(k: TaskId, request: Option<RequestId>, input: string, sessionTab: bool, save: Save)
      requires Ready(Submit(k, request, input, sessionTab, save))
      modifies this
      ensures Now() == Step(old(Now()), Submit(k, request, input, sessionTab, save)) && Inv(Now())
    {
      StepKeeps(Now(), Submit(k, request, input, sessionTab, save));
      if sessionTab {
        if firstStatus.Some? && firstStatus.value in {Pending, Preparing, Sending, Unknown} {
          return;
        }
        if sendRecovery.Some? && sendRecovery.value.status in {Preparing, Sending, Unknown}
          && request != Some(sendRecovery.value.request) {
          return;
        }
      }
      if request.Some? {
        if sendRecovery.Some? && sendRecovery.value.request == request.value {
          return;
        }
        sendRecovery := Some(SendRecord(request.value, input, Preparing));
        var ok := CheckpointSendRecovery(Preparing, save);
        if !ok {
          return;
        }
      }
      tasks := tasks[k := Attempt(request, Handling)];
    }

    // The handler fails before execute_send is created.
    method GiveUpSend(k: TaskId, save: Save)
      requires Ready(HandlerFails(k, save))
      modifies this
      ensures Now() == Step(old(Now()), HandlerFails(k, save)) && Inv(Now())
    {
      StepKeeps(Now(), HandlerFails(k, save));
      var _ := CheckpointAttempt(k, Failed, save);
      tasks := tasks - {k};
    }

    // execute_send up to the call of message_hooks.send.
    method BeginExecuteSend(k: TaskId, valid: bool, save: Save, save2: Save)
      requires Ready(StartSend(k, valid, save, save2))
      modifies this
      ensures Now() == Step(old(Now()), StartSend(k, valid, save, save2)) && Inv(Now())
    {
      StepKeeps(Now(), StartSend(k, valid, save, save2));
      var ok := valid;
      if valid {
        ok := CheckpointAttempt(k, Sending, save);
      }
      if ok {
        sends := sends + [tasks[k].request];
        tasks := tasks[k := tasks[k].(pc := InSend(|sends| - 1))];
      } else {
        var _ := CheckpointAttempt(k, Failed, save2);
        tasks := tasks - {k};
      }
    }

    // execute_send after the call has returned or raised.
    method EndExecuteSend(k: TaskId, delivered: bool, save: Save)
      requires Ready(SendDone(k, delivered, save))
      modifies this
      ensures Now() == Step(old(Now()), SendDone(k, delivered, save)) && Inv(Now())
    {
      StepKeeps(Now(), SendDone(k, delivered, save));
      if delivered && tasks[k].request.Some? {
        accepted := accepted + {tasks[k].request.value};
      }
      var _ := CheckpointAttempt(k, if delivered then Sent else Unknown, save);
      tasks := tasks - {k};
    }
  }
}
