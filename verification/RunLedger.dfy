/**
 The ledger of provider runs, the local update every provider event makes to it, and the
 two handlers that mark a closing run and claim its announcement.

 A closing event is taken in at once and handled later, from a queue; other events come in
 between.
*/
module RunLedger {
  import opened Prelude

  // Ids are only compared.
  type TurnId = nat
  type ThreadId = nat

  datatype RunStatus = STARTED | COMPLETED | FAILED | ERROR | ABORTED | CANCELLED | CANCELED | OTHER(text: string)

  datatype Run = Run(turn: TurnId, thread: ThreadId, status: RunStatus, synced: bool, emitted: bool, progressed: bool)

  datatype Ledger = Ledger(runs: map<TurnId, Run>, current: map<ThreadId, TurnId>, active: set<ThreadId>)

  datatype Kind = TurnStarted | Delta | Final | TurnEnded(status: RunStatus) | OtherKind

  // `allowed` is the verdict on the session's archive state.
  datatype Event = Event(kind: Kind, thread: ThreadId, turn: Option<TurnId>, allowed: bool)

  const EmptyLedger := Ledger(map[], map[], {})

  // The statuses the code treats as final.  CANCELED is not one of them.
  predicate Finished(status: RunStatus) {
    status.COMPLETED? || status.FAILED? || status.ERROR? || status.ABORTED? || status.CANCELLED?
  }

  // ---- the ledger methods ----

  function CurrentRun(l: Ledger, th: ThreadId): Option<Run> {
    if th in l.current && l.current[th] in l.runs then Some(l.runs[l.current[th]]) else None
  }

  function RunForTurn(l: Ledger, th: ThreadId, turn: TurnId): Option<Run> {
    if turn in l.runs && l.runs[turn].thread == th then Some(l.runs[turn]) else None
  }

  function Start(l: Ledger, th: ThreadId, turn: TurnId): Ledger {
    l.(runs := l.runs[turn := Run(turn, th, STARTED, false, false, false)], current := l.current[th := turn])
  }

  // The run mark_provider_run works on.
  function Marked(l: Ledger, th: ThreadId, turn: Option<TurnId>): Option<Run> {
    if turn.Some? then RunForTurn(l, th, turn.value) else CurrentRun(l, th)
  }

  function Put(l: Ledger, run: Run): Ledger {
    l.(runs := l.runs[run.turn := run])
  }

  // ---- update_local ----

  // The turn for which update_local starts a run, if any.
  function Starts(l: Ledger, e: Event): Option<TurnId> {
    var run := CurrentRun(l, e.thread);
    if !e.allowed || e.turn.None? then None
    else match e.kind
         case TurnStarted =>
           var previous := RunForTurn(l, e.thread, e.turn.value);
           if previous.Some? && (previous.value.synced || Finished(previous.value.status)) then None
           else if run.None? || run.value.turn != e.turn.value then e.turn
           else None
         case Delta | Final => if run.None? then e.turn else None
         case _ => None
  }

  function AfterStart(l: Ledger, e: Event): Ledger {
    match Starts(l, e) case None => l case Some(turn) => Start(l, e.thread, turn)
  }

  // Whether the event is taken in; a refused event changes nothing.
  predicate Accepts(l: Ledger, e: Event) {
    var run := CurrentRun(l, e.thread);
    && e.allowed
    && match e.kind
       case TurnStarted =>
         e.turn.Some? ==>
           var previous := RunForTurn(l, e.thread, e.turn.value);
           !(previous.Some? && (previous.value.synced || Finished(previous.value.status)))
       case _ => run.Some? && e.turn.Some? ==> run.value.turn == e.turn.value
  }

  function WithStatus(l: Ledger, e: Event, status: Option<RunStatus>, progressed: bool): Ledger {
    match Marked(l, e.thread, e.turn)
    case None => l
    case Some(run) =>
      Put(l, run.(status := if status.Some? then status.value else run.status,
                  progressed := run.progressed || progressed))
  }

  // What an event that is taken in does once its run has been started.
  function TakenIn(l: Ledger, e: Event): Ledger {
    match e.kind
    case TurnStarted =>
      var run := CurrentRun(l, e.thread);
      if run.None? || !Finished(run.value.status) then l.(active := l.active + {e.thread}) else l
    case Delta => WithStatus(l, e, None, true)
    case Final => WithStatus(l, e, Some(COMPLETED), true)
    case TurnEnded(status) => WithStatus(l.(active := l.active - {e.thread}), e, Some(status), false)
    case OtherKind => l
  }

  function LocalUpdate(l: Ledger, e: Event): Ledger {
    if Accepts(l, e) then TakenIn(AfterStart(l, e), e) else l
  }

  // The turn the delivery handler will see: the event's, or else the current run's.
  function HandlerTurn(l: Ledger, e: Event): Option<TurnId> {
    if e.turn.Some? then e.turn
    else match CurrentRun(l, e.thread) case None => None case Some(run) => Some(run.turn)
  }

  // ---- marks and claims ----

  // _provider_run_for_event
  function EventRun(l: Ledger, th: ThreadId, turn: Option<TurnId>): Option<Run> {
    if turn.Some? && RunForTurn(l, th, turn.value).Some? then RunForTurn(l, th, turn.value) else CurrentRun(l, th)
  }

  // _provider_final_reply_already_synced
  predicate AlreadySynced(l: Ledger, th: ThreadId, turn: Option<TurnId>) {
    var run := EventRun(l, th, turn);
    run.Some? && run.value.synced && (turn.Some? ==> run.value.turn == turn.value)
  }

  // _claim_provider_notification
  function ClaimProvider(l: Ledger, th: ThreadId, turn: Option<TurnId>): (Ledger, bool) {
    var run := EventRun(l, th, turn);
    if run.None? || (turn.Some? && run.value.turn != turn.value) then (l, true)
    else if run.value.emitted then (l, false)
    else match Marked(l, th, turn)
         case None => (l, true)
         case Some(marked) => (Put(l, marked.(emitted := true)), true)
  }

  // _claim_notification; `streamFree` is the answer of the streaming turn's own flag.
  function Claim(l: Ledger, th: ThreadId, turn: Option<TurnId>, streamFree: bool): (Ledger, bool) {
    if !streamFree then (l, false) else ClaimProvider(l, th, turn)
  }

  // ---- the handlers of closing events ----

  // A closing event as its handler will see it.
  datatype Ticket = Ticket(thread: ThreadId, turn: Option<TurnId>, kind: Kind)

  // What the last stretch of a handler finds: whether a streaming turn is there, whether
  // the reply reached the chat, whether it gets as far as the claim, and the stream's flag.
  datatype Handling = Handling(streaming: bool, delivered: bool, claims: bool, streamFree: bool)

  // The turn is over, its reply is out, and its thread has moved on: the handler of the turn's
  // end returns at once.  It asks before it edits the chat, and marks and claims afterwards.
  predicate Stale(l: Ledger, t: Ticket) {
    && t.kind.TurnEnded? && t.turn.Some? && AlreadySynced(l, t.thread, t.turn)
    && CurrentRun(l, t.thread).Some? && CurrentRun(l, t.thread).value.turn != t.turn.value
  }

  // What a handler marks on its run before the claim.
  function Closed(run: Run, kind: Kind, duplicate: bool, delivered: bool): Run {
    match kind
    case TurnEnded(status) => run.(status := status, synced := run.synced || delivered)
    case _ => if duplicate then run.(status := COMPLETED) else run.(synced := run.synced || delivered)
  }

  // The marks before the claim.  Between them and the claim there is no await.
  function MarksOf(l: Ledger, t: Ticket, h: Handling): Ledger {
    match Marked(l, t.thread, t.turn)
    case None => l
    case Some(run) =>
      var duplicate := !h.streaming && AlreadySynced(l, t.thread, t.turn);
      Put(l, Closed(run, t.kind, duplicate, h.delivered))
  }

  // The ledger after the last stretch of a handler, and the stored run whose announcement it
  // was granted.
  function Handled(l: Ledger, t: Ticket, h: Handling): (Ledger, Option<TurnId>) {
    var l1 := MarksOf(l, t, h);
    if !h.claims then (l1, None)
    else
      var (l2, ok) := Claim(l1, t.thread, t.turn, h.streamFree);
      var run := Marked(l1, t.thread, t.turn);
      (l2, if ok && run.Some? then Some(run.value.turn) else None)
  }

  // Runs are stored under their turn; a thread that has a run has a current one.
  predicate Stored(l: Ledger) {
    RunsStored(l.runs, l.current)
  }

  predicate RunsStored(runs: map<TurnId, Run>, current: map<ThreadId, TurnId>) {
    && (forall u <- runs :: runs[u].turn == u && runs[u].thread in current)
    && (forall th {:trigger current[th]} :: th in current ==> current[th] in runs)
  }

  // ---- single events ----

  // An event of a turn that the thread has moved past changes nothing at all.
  lemma SupersededTurnChangesNothing(l: Ledger, e: Event)
    requires !e.kind.TurnStarted? && e.turn.Some?
    requires CurrentRun(l, e.thread).Some? && CurrentRun(l, e.thread).value.turn != e.turn.value
    ensures !Accepts(l, e) && LocalUpdate(l, e) == l
  {
  }

  // Nor does any event of a session whose archive state keeps it out.
  lemma ArchivedSessionChangesNothing(l: Ledger, e: Event)
    requires !e.allowed
    ensures !Accepts(l, e) && LocalUpdate(l, e) == l
  {
  }

  // The first sign of a turn in a thread without a run starts the turn's run.
  lemma FirstSignStartsRun(l: Ledger, e: Event, u: TurnId)
    requires e.allowed && e.turn == Some(u) && CurrentRun(l, e.thread).None? && u !in l.runs
    requires e.kind.TurnStarted? || e.kind.Delta? || e.kind.Final?
    ensures var l' := LocalUpdate(l, e);
      && CurrentRun(l', e.thread) == Some(Run(u, e.thread, if e.kind.Final? then COMPLETED else STARTED, false, false,
                                              !e.kind.TurnStarted?))
      && l'.runs.Keys == l.runs.Keys + {u} && forall v <- l.runs :: l'.runs[v] == l.runs[v]
  {
  }

  // A run of the thread's own is replaced by a new one exactly when a turn-started event
  // comes for it while another run is current and it is neither finished nor synced.
  lemma RestartedExactly(l: Ledger, e: Event, u: TurnId)
    requires Stored(l) && u in l.runs && l.runs[u].thread == e.thread
    ensures Starts(l, e) == Some(u) <==>
      && e.allowed && e.kind.TurnStarted? && e.turn == Some(u)
      && l.current[e.thread] != u && !Finished(l.runs[u].status) && !l.runs[u].synced
  {
  }

  // So a run that is open, or was ended with any other status, is started again when its turn
  // comes back after another; a completed, failed, aborted or cancelled one never is.
  lemma ReturningTurnRestartsExactly(l: Ledger, th: ThreadId, u: TurnId)
    requires Stored(l) && u in l.runs && l.runs[u].thread == th && l.current[th] != u && !l.runs[u].synced
    ensures Starts(l, Event(TurnStarted, th, Some(u), true)) == Some(u) <==>
      l.runs[u].status !in {COMPLETED, FAILED, ERROR, ABORTED, CANCELLED}
  {
    RestartedExactly(l, Event(TurnStarted, th, Some(u), true), u);
  }

  // A finished run is replaced exactly through a turn id that a second thread uses too.
  lemma FinishedRunReplacedExactly(l: Ledger, e: Event, u: TurnId)
    requires Stored(l) && u in l.runs && Finished(l.runs[u].status)
    ensures Starts(l, e) == Some(u) <==>
      && e.allowed && e.turn == Some(u) && l.runs[u].thread != e.thread
      && (e.thread !in l.current || (e.kind.TurnStarted? && l.current[e.thread] != u))
      && (e.kind.TurnStarted? || e.kind.Delta? || e.kind.Final?)
  {
  }

  // A thread is active from a start that is taken in to an end that is; nothing else, and no
  // other thread's event, changes that.
  lemma ActiveFollowsTurns(l: Ledger, e: Event, th: ThreadId)
    requires Accepts(l, e)
    ensures var l' := LocalUpdate(l, e); var run := CurrentRun(AfterStart(l, e), e.thread);
      th in l'.active <==>
        if th != e.thread || !(e.kind.TurnStarted? || e.kind.TurnEnded?) then th in l.active
        else e.kind.TurnStarted? && (th in l.active || run.None? || !Finished(run.value.status))
  {
  }

  // The run that an event is about has been announced.
  predicate AnnouncedBefore(l: Ledger, th: ThreadId, turn: Option<TurnId>) {
    match turn
    case Some(u) =>
      && u in l.runs && l.runs[u].emitted
      && (l.runs[u].thread == th || (th in l.current && l.current[th] == u))
    case None => th in l.current && l.current[th] in l.runs && l.runs[l.current[th]].emitted
  }

  // A claim is granted exactly when the stream is free and the run has not been announced; an
  // event without a stored run is always granted.
  lemma ClaimGrantedExactly(l: Ledger, th: ThreadId, turn: Option<TurnId>, streamFree: bool)
    requires Stored(l)
    ensures Claim(l, th, turn, streamFree).1 <==> streamFree && !AnnouncedBefore(l, th, turn)
  {
  }

  // Of two claims for a stored run of the thread, one at most is granted.
  lemma SecondClaimIsRefused(l: Ledger, th: ThreadId, turn: Option<TurnId>, streamFree: bool)
    requires Stored(l) && Marked(l, th, turn).Some? && Claim(l, th, turn, streamFree).1
    ensures !Claim(Claim(l, th, turn, streamFree).0, th, turn, true).1
  {
  }

  // ---- sequences of events and handlers ----

  datatype State = State(
    ledger: Ledger,
    tickets: set<Ticket>,    // closing events taken in
    passed: set<Ticket>,     // ends of turns whose handler found them current
    granted: seq<TurnId>)    // every announcement granted to a stored run, oldest first

  // A handler starts and finishes; other events come in before and in between.
  datatype Step = Local(event: Event) | Look(ticket: Ticket) | Handle(ticket: Ticket, handling: Handling)

  const Init := State(EmptyLedger, {}, {}, [])

  function NewTickets(l: Ledger, e: Event): set<Ticket> {
    if Accepts(l, e) && (e.kind.Final? || e.kind.TurnEnded?)
    then {Ticket(e.thread, HandlerTurn(LocalUpdate(l, e), e), e.kind)} else {}
  }

  function Next(s: State, step: Step): State {
    match step
    case Local(e) => s.(ledger := LocalUpdate(s.ledger, e), tickets := s.tickets + NewTickets(s.ledger, e))
    case Look(t) => if Stale(s.ledger, t) then s else s.(passed := s.passed + {t})
    case Handle(t, h) =>
      var (l, granted) := Handled(s.ledger, t, h);
      s.(ledger := l, granted := match granted case None => s.granted case Some(u) => s.granted + [u])
  }

  // Closing events may be handled in any order and any number of times.
  predicate Enabled(s: State, step: Step) {
    match step
    case Local(_) => true
    case Look(t) => t in s.tickets && t.kind.TurnEnded?
    case Handle(t, _) => t in (if t.kind.TurnEnded? then s.passed else s.tickets)
  }

  ghost predicate ValidRun(s: State, steps: seq<Step>)
    decreases |steps|
  {
    steps == [] || (Enabled(s, steps[0]) && ValidRun(Next(s, steps[0]), steps[1..]))
  }

  function After(s: State, steps: seq<Step>): State
    decreases |steps|
  {
    if steps == [] then s else After(Next(s, steps[0]), steps[1..])
  }

  predicate Repeats(granted: seq<TurnId>) {
    exists i, j :: 0 <= i < j < |granted| && granted[i] == granted[j]
  }
}
