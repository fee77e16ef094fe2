/**
 A run is announced at most once unless a step unseals it, and after such a step it can be
 announced again.
*/
module RunLedgerProofs {
  import opened Prelude
  import opened RunLedger

  // ---- what unseals an announced run ----

  // Nothing restarts a run of the thread's own that is finished or synced.
  predicate Sealed(run: Run) {
    Finished(run.status) || run.synced
  }

  // The step leaves an announced run open: it is taken over by a thread that uses the same
  // turn id, it is ended with a status outside the final ones, or it is announced while it
  // is still open.
  predicate Unseals(s: State, step: Step) {
    match step
    case Local(e) => TakesOver(s.ledger, e) || (Accepts(s.ledger, e) && Reopens(s.ledger, e))
    case Look(_) => false
    case Handle(t, h) =>
      var run := Marked(s.ledger, t.thread, t.turn);
      && run.Some? && !run.value.synced && !h.delivered
      && (match t.kind
          case TurnEnded(status) => !Finished(status) && (run.value.emitted || (h.claims && h.streamFree))
          case _ => !Finished(run.value.status) && !run.value.emitted && h.claims && h.streamFree)
  }

  predicate TakesOver(l: Ledger, e: Event) {
    var u := Starts(l, e);
    u.Some? && u.value in l.runs && l.runs[u.value].thread != e.thread && l.runs[u.value].emitted
  }

  predicate Reopens(l: Ledger, e: Event) {
    var run := Marked(l, e.thread, e.turn);
    e.kind.TurnEnded? && !Finished(e.kind.status) && run.Some? && run.value.emitted && !run.value.synced
  }

  // The announced runs are the ones marked, and they are sealed.
  predicate Announced(l: Ledger, granted: seq<TurnId>) {
    && (forall u :: u in granted ==> u in l.runs && l.runs[u].emitted && Sealed(l.runs[u]))
    && (forall u <- l.runs :: l.runs[u].emitted ==> u in granted)
  }

  predicate Inv(s: State) {
    Stored(s.ledger) && Announced(s.ledger, s.granted) && !Repeats(s.granted)
  }

  lemma MarkedIsStored(l: Ledger, th: ThreadId, turn: Option<TurnId>)
    requires Stored(l) && Marked(l, th, turn).Some?
    ensures var run := Marked(l, th, turn).value; run.turn in l.runs && l.runs[run.turn] == run
  {
  }

  // ---- the runs stay stored ----

  lemma StartKeepsStored(l: Ledger, e: Event)
    requires Stored(l)
    ensures Stored(AfterStart(l, e))
  {
  }

  function EventMark(run: Run, kind: Kind): (marked: Run)
    ensures marked.turn == run.turn && marked.thread == run.thread && marked.emitted == run.emitted
  {
    match kind
    case Final => run.(status := COMPLETED, progressed := true)
    case TurnEnded(status) => run.(status := status)
    case Delta => run.(progressed := true)
    case _ => run
  }

  // Marking one run keeps the runs stored.
  lemma MarkKeepsStored(l: Ledger, th: ThreadId, turn: Option<TurnId>, run: Run)
    requires Stored(l) && Marked(l, th, turn).Some?
    requires run.turn == Marked(l, th, turn).value.turn && run.thread == Marked(l, th, turn).value.thread
    ensures RunsStored(l.runs[run.turn := run], l.current)
  {
    MarkedIsStored(l, th, turn);
    OneRunIsStored(l.runs, l.current, run);
  }

  lemma OneRunIsStored(runs: map<TurnId, Run>, current: map<ThreadId, TurnId>, run: Run)
    requires RunsStored(runs, current) && run.turn in runs && run.thread == runs[run.turn].thread
    ensures RunsStored(runs[run.turn := run], current)
  {
  }

  function BeforeMark(l: Ledger, e: Event): Ledger {
    if e.kind.TurnEnded? then l.(active := l.active - {e.thread}) else l
  }

  lemma TakenInIsOneMark(l: Ledger, e: Event)
    requires Stored(l) && !e.kind.TurnStarted?
    ensures TakenIn(l, e) == match Marked(l, e.thread, e.turn)
                             case None => BeforeMark(l, e)
                             case Some(run) => Put(BeforeMark(l, e), EventMark(run, e.kind))
  {
    if Marked(l, e.thread, e.turn).Some? {
      MarkedIsStored(l, e.thread, e.turn);
      var run := Marked(l, e.thread, e.turn).value;
      assert e.kind.OtherKind? ==> l.runs[run.turn := run] == l.runs;
    }
  }

  // The runs after an event that was taken in.
  function TakenRuns(l: Ledger, e: Event): map<TurnId, Run> {
    var run := Marked(l, e.thread, e.turn);
    if run.None? || e.kind.TurnStarted? then l.runs else Put(l, EventMark(run.value, e.kind)).runs
  }

  lemma TakenInRuns(l: Ledger, e: Event)
    requires Stored(l)
    ensures TakenIn(l, e).current == l.current && TakenIn(l, e).runs == TakenRuns(l, e)
  {
    if !e.kind.TurnStarted? {
      TakenInIsOneMark(l, e);
    }
  }

  lemma TakenRunsAreStored(l: Ledger, e: Event)
    requires Stored(l)
    ensures RunsStored(TakenRuns(l, e), l.current)
  {
    var run := Marked(l, e.thread, e.turn);
    if run.Some? && !e.kind.TurnStarted? {
      MarkKeepsStored(l, e.thread, e.turn, EventMark(run.value, e.kind));
    }
  }

  lemma TakenInKeepsStored(l: Ledger, e: Event)
    requires Stored(l)
    ensures Stored(TakenIn(l, e))
  {
    TakenInRuns(l, e);
    TakenRunsAreStored(l, e);
  }

  lemma LocalKeepsStored(l: Ledger, e: Event)
    requires Stored(l)
    ensures Stored(LocalUpdate(l, e))
  {
    StartKeepsStored(l, e);
    TakenInKeepsStored(AfterStart(l, e), e);
  }

  // ---- the run a handler works on ----

  function MarkedBy(l: Ledger, t: Ticket, h: Handling): Run
    requires Marked(l, t.thread, t.turn).Some?
  {
    Closed(Marked(l, t.thread, t.turn).value, t.kind, !h.streaming && AlreadySynced(l, t.thread, t.turn), h.delivered)
  }

  lemma DuplicateIsSynced(l: Ledger, th: ThreadId, turn: Option<TurnId>)
    requires AlreadySynced(l, th, turn) && Marked(l, th, turn).Some?
    ensures Marked(l, th, turn).value.synced
  {
  }

  // A claim on a stored run is granted exactly when the run has not been announced.
  lemma ClaimIsOneMark(l: Ledger, th: ThreadId, turn: Option<TurnId>, streamFree: bool)
    requires Marked(l, th, turn).Some? && (turn.Some? ==> Marked(l, th, turn).value.turn == turn.value)
    ensures var run := Marked(l, th, turn).value;
      Claim(l, th, turn, streamFree)
      == if streamFree && !run.emitted then (Put(l, run.(emitted := true)), true) else (l, false)
  {
  }

  lemma MarkedKey(l: Ledger, th: ThreadId, turn: Option<TurnId>)
    requires Stored(l) && Marked(l, th, turn).Some?
    ensures var u := Marked(l, th, turn).value.turn;
      if turn.Some? then turn.value == u && l.runs[u].thread == th else th in l.current && l.current[th] == u
  {
  }

  lemma UnmarkedPut(l: Ledger, th: ThreadId, turn: Option<TurnId>)
    requires Stored(l) && Marked(l, th, turn).Some?
    ensures var run := Marked(l, th, turn).value; Put(l, run) == l
  {
    MarkedIsStored(l, th, turn);
    assert l.runs[Marked(l, th, turn).value.turn := Marked(l, th, turn).value] == l.runs;
  }

  lemma MarkedAfterPut(l: Ledger, th: ThreadId, turn: Option<TurnId>, run: Run)
    requires Stored(l) && Marked(l, th, turn).Some?
    requires run.turn == Marked(l, th, turn).value.turn && run.thread == Marked(l, th, turn).value.thread
    ensures Marked(Put(l, run), th, turn) == Some(run) && (turn.Some? ==> run.turn == turn.value)
  {
    MarkedKey(l, th, turn);
    var l' := Put(l, run);
    assert l'.runs[run.turn] == run && l'.current == l.current;
    assert turn.Some? ==> RunForTurn(l', th, turn.value) == Some(run);
    assert turn.None? ==> CurrentRun(l', th) == Some(run);
  }

  lemma TwoMarks(l: Ledger, t: Ticket, h: Handling)
    requires Stored(l) && t.kind.TurnEnded? && Marked(l, t.thread, t.turn).Some?
    ensures var run := Marked(l, t.thread, t.turn).value; var first := run.(synced := run.synced || h.delivered);
      && Marked(Put(l, first), t.thread, t.turn) == Some(first)
      && MarksOf(l, t, h) == Put(Put(l, first), first.(status := t.kind.status))
  {
    var run := Marked(l, t.thread, t.turn).value;
    var first := run.(synced := run.synced || h.delivered);
    MarkedAfterPut(l, t.thread, t.turn, first);
    PutTwice(l, first, first.(status := t.kind.status));
    assert Closed(run, t.kind, false, h.delivered) == first.(status := t.kind.status);
  }

  lemma PutTwice(l: Ledger, a: Run, b: Run)
    requires a.turn == b.turn
    ensures Put(Put(l, a), b) == Put(l, b)
  {
    assert l.runs[a.turn := a][b.turn := b] == l.runs[b.turn := b];
  }

  // A stored run is marked and, if the handler gets that far and it has not been announced,
  // announced.
  function MarkedAndClaimed(l: Ledger, run: Run, claims: bool): (Ledger, Option<TurnId>) {
    if claims && !run.emitted then (Put(Put(l, run), run.(emitted := true)), Some(run.turn)) else (Put(l, run), None)
  }

  lemma HandledExactly(l: Ledger, t: Ticket, h: Handling)
    requires Stored(l) && Marked(l, t.thread, t.turn).Some?
    ensures Handled(l, t, h) == MarkedAndClaimed(l, MarkedBy(l, t, h), h.claims && h.streamFree)
  {
    var run := MarkedBy(l, t, h);
    MarkedAfterPut(l, t.thread, t.turn, run);
    assert MarksOf(l, t, h) == Put(l, run);
    ClaimIsOneMark(Put(l, run), t.thread, t.turn, h.streamFree);
  }

  lemma UnmarkedIsUnchanged(l: Ledger, t: Ticket, h: Handling)
    requires Marked(l, t.thread, t.turn).None?
    ensures Handled(l, t, h).0 == l
  {
  }

  lemma HandledRuns(l: Ledger, t: Ticket, h: Handling)
    requires Stored(l) && Marked(l, t.thread, t.turn).Some?
    ensures var run := MarkedBy(l, t, h); var l' := Handled(l, t, h).0;
      && l'.current == l.current
      && l'.runs == l.runs[run.turn := run.(emitted := run.emitted || (h.claims && h.streamFree))]
  {
    HandledExactly(l, t, h);
    MarkedAndClaimedRuns(l, MarkedBy(l, t, h), h.claims && h.streamFree);
  }

  lemma MarkedAndClaimedRuns(l: Ledger, run: Run, claims: bool)
    ensures var l' := MarkedAndClaimed(l, run, claims).0;
      l'.current == l.current && l'.runs == l.runs[run.turn := run.(emitted := run.emitted || claims)]
  {
  }

  lemma HandledKeepsStored(l: Ledger, t: Ticket, h: Handling)
    requires Stored(l)
    ensures Stored(Handled(l, t, h).0)
  {
    if Marked(l, t.thread, t.turn).Some? {
      HandledRuns(l, t, h);
      var run := MarkedBy(l, t, h);
      MarkKeepsStored(l, t.thread, t.turn, run.(emitted := run.emitted || (h.claims && h.streamFree)));
    } else {
      UnmarkedIsUnchanged(l, t, h);
    }
  }

  lemma StepKeepsStored(s: State, step: Step)
    requires Stored(s.ledger)
    ensures Stored(Next(s, step).ledger)
  {
    match step
    case Local(e) => LocalKeepsStored(s.ledger, e);
    case Look(_) =>
    case Handle(t, h) => HandledKeepsStored(s.ledger, t, h);
  }

  // ---- the announced runs stay sealed, exactly ----

  // One run changes: it decides.
  lemma PutKeepsAnnounced(l: Ledger, run: Run, granted: seq<TurnId>)
    requires Announced(l, granted) && run.turn in l.runs && run.emitted == l.runs[run.turn].emitted
    ensures Announced(Put(l, run), granted) <==> (run.emitted ==> Sealed(run))
  {
    var l' := Put(l, run);
    if run.emitted && !Sealed(run) {
      assert run.turn in granted;
    }
  }

  lemma StartKeeps(l: Ledger, e: Event, granted: seq<TurnId>)
    requires Stored(l) && Announced(l, granted)
    ensures Announced(AfterStart(l, e), granted) <==> !TakesOver(l, e)
  {
    var u := Starts(l, e);
    if u.Some? {
      var l' := AfterStart(l, e);
      if u.value in l.runs && l.runs[u.value].emitted {
        assert u.value in granted && !l'.runs[u.value].emitted;
        if l.runs[u.value].thread == e.thread {
          RestartedExactly(l, e, u.value);
        }
      } else {
        assert u.value !in granted;
      }
    }
  }

  // The mark update_local makes, on the run it has just started or on an older one.
  lemma TakenInKeeps(l: Ledger, e: Event, granted: seq<TurnId>)
    requires Stored(l) && Announced(l, granted)
    ensures Announced(TakenIn(l, e), granted) <==> !Reopens(l, e)
  {
    if !e.kind.TurnStarted? {
      TakenInIsOneMark(l, e);
      if Marked(l, e.thread, e.turn).Some? {
        MarkedIsStored(l, e.thread, e.turn);
        EventMarkKeeps(BeforeMark(l, e), Marked(l, e.thread, e.turn).value, e.kind, granted);
      }
    }
  }

  lemma EventMarkKeeps(l: Ledger, run: Run, kind: Kind, granted: seq<TurnId>)
    requires Announced(l, granted) && run.turn in l.runs && l.runs[run.turn] == run
    ensures Announced(Put(l, EventMark(run, kind)), granted) <==>
      !(kind.TurnEnded? && !Finished(kind.status) && run.emitted && !run.synced)
  {
    PutKeepsAnnounced(l, EventMark(run, kind), granted);
    if run.emitted {
      assert run.turn in granted && Sealed(run);
    }
  }

  lemma LocalKeepsExactly(s: State, e: Event)
    requires Inv(s)
    ensures Inv(Next(s, Local(e))) <==> !Unseals(s, Local(e))
  {
    LocalKeepsStored(s.ledger, e);
    if !Accepts(s.ledger, e) {
      RefusedStartsNothing(s.ledger, e);
    } else if TakesOver(s.ledger, e) {
      TakenOverIsUnsound(s, e);
    } else {
      AcceptedKeepsExactly(s, e);
    }
  }

  lemma AcceptedKeepsExactly(s: State, e: Event)
    requires Inv(s) && Accepts(s.ledger, e) && !TakesOver(s.ledger, e)
    ensures Announced(LocalUpdate(s.ledger, e), s.granted) <==> !Reopens(s.ledger, e)
  {
    StartKeeps(s.ledger, e, s.granted);
    StartKeepsStored(s.ledger, e);
    TakenInKeeps(AfterStart(s.ledger, e), e, s.granted);
    assert e.kind.TurnEnded? ==> AfterStart(s.ledger, e) == s.ledger;
  }

  lemma RefusedStartsNothing(l: Ledger, e: Event)
    requires !Accepts(l, e)
    ensures Starts(l, e).None?
  {
  }

  // The run that took the announced one's place is not marked as announced.
  lemma TakenOverIsUnsound(s: State, e: Event)
    requires Inv(s) && TakesOver(s.ledger, e) && Accepts(s.ledger, e)
    ensures var u := Starts(s.ledger, e).value; var l := Next(s, Local(e)).ledger;
      && u in s.granted && u in l.runs && !l.runs[u].emitted && !l.runs[u].synced && l.runs[u].thread == e.thread
      && e.thread in l.current && l.current[e.thread] == u && l.runs[u].turn == u
  {
    var u, l1 := Starts(s.ledger, e).value, AfterStart(s.ledger, e);
    assert u in s.granted;
    StartKeepsStored(s.ledger, e);
    assert l1.runs[u] == Run(u, e.thread, STARTED, false, false, false) && l1.current[e.thread] == u;
    StartedRunIsMarked(l1, e, u);
  }

  lemma StartedRunIsMarked(l: Ledger, e: Event, u: TurnId)
    requires Stored(l) && u in l.runs && l.runs[u].thread == e.thread && e.turn == Some(u)
    ensures var l' := TakenIn(l, e);
      && l'.current == l.current && u in l'.runs
      && l'.runs[u] == (if e.kind.TurnStarted? then l.runs[u] else EventMark(l.runs[u], e.kind))
  {
    TakenInRuns(l, e);
  }

  lemma HandleKeepsExactly(s: State, t: Ticket, h: Handling)
    requires Inv(s)
    ensures Inv(Next(s, Handle(t, h))) <==> !Unseals(s, Handle(t, h))
  {
    HandledKeepsStored(s.ledger, t, h);
    HandledSealsExactly(s, t, h);
  }

  lemma HandledSealsExactly(s: State, t: Ticket, h: Handling)
    requires Inv(s)
    ensures var s' := Next(s, Handle(t, h));
      !Repeats(s'.granted) && (Announced(s'.ledger, s'.granted) <==> !Unseals(s, Handle(t, h)))
  {
    var l := s.ledger;
    if Marked(l, t.thread, t.turn).Some? {
      HandledExactly(l, t, h);
      SealedBefore(l, t, s.granted);
      ClosedSealsExactly(s, t, h);
      MarkedIsStored(l, t.thread, t.turn);
      MarkAndClaimKeeps(l, MarkedBy(l, t, h), h.claims && h.streamFree, s.granted);
    }
  }

  lemma SealedBefore(l: Ledger, t: Ticket, granted: seq<TurnId>)
    requires Stored(l) && Announced(l, granted) && Marked(l, t.thread, t.turn).Some?
    ensures var run := Marked(l, t.thread, t.turn).value; run.emitted ==> Sealed(run) && run.turn in granted
  {
    MarkedIsStored(l, t.thread, t.turn);
  }

  // The run is announced and open after the handler exactly when the step unseals.
  lemma ClosedSealsExactly(s: State, t: Ticket, h: Handling)
    requires Marked(s.ledger, t.thread, t.turn).Some?
    requires var run := Marked(s.ledger, t.thread, t.turn).value; run.emitted ==> Sealed(run)
    ensures var run := MarkedBy(s.ledger, t, h);
      Unseals(s, Handle(t, h)) <==> (run.emitted || (h.claims && h.streamFree)) && !Sealed(run)
  {
    if AlreadySynced(s.ledger, t.thread, t.turn) { DuplicateIsSynced(s.ledger, t.thread, t.turn); }
  }

  // One run is marked and, if `claims`, announced when it was not before.
  lemma MarkAndClaimKeeps(l: Ledger, run: Run, claims: bool, granted: seq<TurnId>)
    requires Announced(l, granted) && !Repeats(granted)
    requires run.turn in l.runs && run.emitted == l.runs[run.turn].emitted
    ensures var (l', u) := MarkedAndClaimed(l, run, claims);
      var g := match u case None => granted case Some(turn) => granted + [turn];
      !Repeats(g) && (Announced(l', g) <==> !((run.emitted || claims) && !Sealed(run)))
  {
    PutKeepsAnnounced(l, run, granted);
    if claims && !run.emitted {
      ClaimAddsOne(Put(l, run), run, granted);
    }
  }

  lemma ClaimAddsOne(l: Ledger, run: Run, granted: seq<TurnId>)
    requires Announced(l, granted) && !Repeats(granted)
    requires run.turn in l.runs && l.runs[run.turn] == run && !run.emitted
    ensures Announced(Put(l, run.(emitted := true)), granted + [run.turn]) <==> Sealed(run)
    ensures !Repeats(granted + [run.turn])
  {
    var g := granted + [run.turn];
    assert run.turn !in granted;
    NewIsNoRepeat(granted, run.turn);
    assert g[|granted|] == run.turn;
    assert forall u :: u in g <==> u in granted || u == run.turn;
  }

  lemma NewIsNoRepeat(granted: seq<TurnId>, u: TurnId)
    requires u !in granted && !Repeats(granted)
    ensures !Repeats(granted + [u])
  {
    var g := granted + [u];
    forall i, j | 0 <= i < j < |g| ensures g[i] != g[j] {
      assert g[i] == granted[i] && granted[i] in granted;
    }
  }

  // Each step keeps the announced runs sealed and unrepeated exactly when it unseals none.
  lemma StepKeepsExactly(s: State, step: Step)
    requires Inv(s)
    ensures Inv(Next(s, step)) <==> !Unseals(s, step)
  {
    match step
    case Local(e) => LocalKeepsExactly(s, e);
    case Look(_) =>
    case Handle(t, h) => HandleKeepsExactly(s, t, h);
  }

  // ---- at most once, exactly ----

  predicate Careful(s: State, steps: seq<Step>)
    decreases |steps|
  {
    steps == [] || (!Unseals(s, steps[0]) && Careful(Next(s, steps[0]), steps[1..]))
  }

  lemma {:induction false} RunKeeps(s: State, steps: seq<Step>)
    requires Inv(s) && Careful(s, steps)
    ensures Inv(After(s, steps))
    decreases |steps|
  {
    if steps != [] {
      StepKeepsExactly(s, steps[0]);
      RunKeeps(Next(s, steps[0]), steps[1..]);
    }
  }

  // Over every sequence of duplicated, reordered and stale events, a stored run is
  // announced at most once, as long as no step unseals an announced run.
  lemma NotifiedAtMostOnce(steps: seq<Step>)
    requires ValidRun(Init, steps) && Careful(Init, steps)
    ensures !Repeats(After(Init, steps).granted)
  {
    RunKeeps(Init, steps);
  }

  // Some continuation, with no further step of that kind, repeats an announcement.
  ghost predicate CanRepeat(s: State) {
    exists steps :: ValidRun(s, steps) && Careful(s, steps) && Repeats(After(s, steps).granted)
  }

  lemma RepeatsNow(s: State)
    requires Repeats(s.granted)
    ensures CanRepeat(s)
  {
    assert ValidRun(s, []) && Careful(s, []) && After(s, []) == s;
  }

  lemma RepeatsLater(s: State, step: Step)
    requires Enabled(s, step) && !Unseals(s, step) && CanRepeat(Next(s, step))
    ensures CanRepeat(s)
  {
    var s' := Next(s, step);
    var rest :| ValidRun(s', rest) && Careful(s', rest) && Repeats(After(s', rest).granted);
    var steps := [step] + rest;
    assert steps[0] == step && steps[1..] == rest;
    assert ValidRun(s, steps) && Careful(s, steps) && After(s, steps) == After(Next(s, step), rest);
  }

  // The current run of a thread, announced before but not so marked, ends and is announced.
  lemma EndsAgain(s: State, th: ThreadId, u: TurnId)
    requires th in s.ledger.current && s.ledger.current[th] == u && u in s.ledger.runs
    requires s.ledger.runs[u].turn == u && s.ledger.runs[u].thread == th && !s.ledger.runs[u].emitted
    requires u in s.granted
    ensures CanRepeat(s)
  {
    var e := Event(TurnEnded(COMPLETED), th, Some(u), true);
    var s1 := Next(s, Local(e));
    var t := Ticket(th, Some(u), e.kind);
    assert s1.ledger.current == s.ledger.current;
    assert s1.ledger.runs == s.ledger.runs[u := s.ledger.runs[u].(status := COMPLETED)];
    assert t in s1.tickets && !Stale(s1.ledger, t);
    var s2 := Next(s1, Look(t));
    var h := Handling(true, false, true, true);
    var s3 := Next(s2, Handle(t, h));
    assert MarkedBy(s2.ledger, t, h) == s2.ledger.runs[u];
    assert s3.granted == s.granted + [u];
    var i :| 0 <= i < |s.granted| && s.granted[i] == u;
    assert s3.granted[i] == s3.granted[|s.granted|];
    RepeatsNow(s3);
    RepeatsLater(s2, Handle(t, h));
    RepeatsLater(s1, Look(t));
    RepeatsLater(s, Local(e));
  }

  // An announced run that is open is started afresh once another turn has come in between.
  lemma RestartsAgain(s: State, u: TurnId)
    requires Stored(s.ledger) && u in s.ledger.runs && !Sealed(s.ledger.runs[u]) && u in s.granted
    ensures CanRepeat(s)
  {
    var th := s.ledger.runs[u].thread;
    var b := UnusedId(s.ledger.runs.Keys);
    var e1, e2 := Event(TurnStarted, th, Some(b), true), Event(TurnStarted, th, Some(u), true);
    var s1 := Next(s, Local(e1));
    TurnStarts(s, th, b);
    var s2 := Next(s1, Local(e2));
    TurnStarts(s1, th, u);
    EndsAgain(s2, th, u);
    RepeatsLater(s1, Local(e2));
    RepeatsLater(s, Local(e1));
  }

  // A turn other than the current one starts unless a sealed run of the thread has its id.
  lemma TurnStarts(s: State, th: ThreadId, b: TurnId)
    requires th in s.ledger.current && s.ledger.current[th] in s.ledger.runs
    requires s.ledger.runs[s.ledger.current[th]].turn != b
    requires b in s.ledger.runs ==> s.ledger.runs[b].thread == th && !Sealed(s.ledger.runs[b])
    ensures var e := Event(TurnStarted, th, Some(b), true); var s' := Next(s, Local(e));
      && !Unseals(s, Local(e)) && s'.granted == s.granted
      && s'.ledger.runs == s.ledger.runs[b := Run(b, th, STARTED, false, false, false)]
      && s'.ledger.current == s.ledger.current[th := b]
  {
    var e := Event(TurnStarted, th, Some(b), true);
    assert Starts(s.ledger, e) == Some(b) && Accepts(s.ledger, e);
  }

  lemma ReopenedRun(s: State, e: Event) returns (u: TurnId)
    requires Inv(s) && Accepts(s.ledger, e) && Reopens(s.ledger, e)
    ensures var s' := Next(s, Local(e)); u in s'.ledger.runs && !Sealed(s'.ledger.runs[u]) && u in s'.granted
  {
    MarkedIsStored(s.ledger, e.thread, e.turn);
    u := Marked(s.ledger, e.thread, e.turn).value.turn;
    assert AfterStart(s.ledger, e) == s.ledger;
    TakenInIsOneMark(s.ledger, e);
  }

  lemma UnsealedByHandler(s: State, t: Ticket, h: Handling) returns (u: TurnId)
    requires Inv(s) && Unseals(s, Handle(t, h))
    ensures var s' := Next(s, Handle(t, h)); u in s'.ledger.runs && !Sealed(s'.ledger.runs[u]) && u in s'.granted
  {
    HandledExactly(s.ledger, t, h);
    SealedBefore(s.ledger, t, s.granted);
    ClosedSealsExactly(s, t, h);
    u := MarkedBy(s.ledger, t, h).turn;
  }

  // A step after which an announcement can be repeated, by a continuation that unseals
  // nothing more, is exactly a step that unseals an announced run.
  lemma AnnouncedAgainExactly(s: State, step: Step)
    requires Inv(s) && Enabled(s, step)
    ensures CanRepeat(Next(s, step)) <==> Unseals(s, step)
  {
    var s' := Next(s, step);
    if !Unseals(s, step) {
      StepKeepsExactly(s, step);
      forall steps | ValidRun(s', steps) && Careful(s', steps) ensures !Repeats(After(s', steps).granted) {
        RunKeeps(s', steps);
      }
    } else if step.Local? && TakesOver(s.ledger, step.event) {
      if !Accepts(s.ledger, step.event) { RefusedStartsNothing(s.ledger, step.event); }
      TakenOverIsUnsound(s, step.event);
      EndsAgain(s', step.event.thread, Starts(s.ledger, step.event).value);
    } else {
      var u;
      if step.Local? {
        u := ReopenedRun(s, step.event);
      } else {
        u := UnsealedByHandler(s, step.ticket, step.handling);
      }
      StepKeepsStored(s, step);
      RestartsAgain(s', u);
    }
  }

  // ---- an ordinary turn is announced ----

  // A turn that starts anew, ends and is handled without anything in between: its run is
  // announced, and its thread is active in the meantime.
  lemma TurnIsAnnounced(s: State, th: ThreadId, u: TurnId)
    requires Stored(s.ledger) && u !in s.ledger.runs
    ensures var s1 := Next(s, Local(Event(TurnStarted, th, Some(u), true)));
      var s2 := Next(s1, Local(Event(TurnEnded(COMPLETED), th, Some(u), true)));
      var t := Ticket(th, Some(u), TurnEnded(COMPLETED));
      var s3 := Next(s2, Look(t));
      var s4 := Next(s3, Handle(t, Handling(true, true, true, true)));
      && th in s1.ledger.active && th !in s2.ledger.active
      && Enabled(s2, Look(t)) && Enabled(s3, Handle(t, Handling(true, true, true, true)))
      && s4.granted == s.granted + [u]
      && u in s4.ledger.runs && s4.ledger.runs[u] == Run(u, th, COMPLETED, true, true, false)
  {
    var e1, e2 := Event(TurnStarted, th, Some(u), true), Event(TurnEnded(COMPLETED), th, Some(u), true);
    assert Starts(s.ledger, e1) == Some(u) && Accepts(s.ledger, e1);
    var s1 := Next(s, Local(e1));
    assert s1.ledger.runs == s.ledger.runs[u := Run(u, th, STARTED, false, false, false)];
    assert s1.ledger.current == s.ledger.current[th := u];
    var s2 := Next(s1, Local(e2));
    var t := Ticket(th, Some(u), e2.kind);
    assert t in s2.tickets && s2.ledger.current == s1.ledger.current;
    assert s2.ledger.runs == s1.ledger.runs[u := Run(u, th, COMPLETED, false, false, false)];
    var s3 := Next(s2, Look(t));
    assert s3.ledger == s2.ledger && t in s3.passed;
    CurrentTurnIsHandled(s3, t);
  }

  // A final item for the current run is announced too, once it has reached the chat.
  lemma FinalIsAnnounced(s: State, th: ThreadId, u: TurnId, streaming: bool)
    requires Stored(s.ledger) && CurrentRun(s.ledger, th) == Some(Run(u, th, STARTED, false, false, false))
    ensures var s1 := Next(s, Local(Event(Final, th, Some(u), true)));
      var t := Ticket(th, Some(u), Final);
      var s2 := Next(s1, Handle(t, Handling(streaming, true, true, true)));
      && Enabled(s1, Handle(t, Handling(streaming, true, true, true))) && s2.granted == s.granted + [u]
      && u in s2.ledger.runs && s2.ledger.runs[u] == Run(u, th, COMPLETED, true, true, true)
  {
    var e := Event(Final, th, Some(u), true);
    var s1 := Next(s, Local(e));
    var t := Ticket(th, Some(u), Final);
    assert Accepts(s.ledger, e) && AfterStart(s.ledger, e) == s.ledger;
    var run := Run(u, th, COMPLETED, false, false, true);
    assert s1.ledger.runs == s.ledger.runs[u := run] && s1.ledger.current == s.ledger.current;
    var h := Handling(streaming, true, true, true);
    assert MarksOf(s1.ledger, t, h) == Put(s1.ledger, run.(synced := true));
    ClaimIsOneMark(Put(s1.ledger, run.(synced := true)), th, Some(u), true);
  }

  // The end of a turn whose reply is out already, and whose thread runs another turn, is passed
  // over; any other end of a turn is handled.
  lemma PassedOverExactly(s: State, t: Ticket, u: TurnId)
    requires Stored(s.ledger) && t.kind.TurnEnded? && t.turn == Some(u) && t !in s.passed
    requires u in s.ledger.runs && s.ledger.runs[u].thread == t.thread
    ensures t !in Next(s, Look(t)).passed <==> s.ledger.runs[u].synced && s.ledger.current[t.thread] != u
  {
  }

  // A second final item of a turn whose reply is out completes its run, and announces it if
  // that has not been done.
  lemma DuplicateFinalCompletes(s: State, t: Ticket, u: TurnId, delivered: bool)
    requires Stored(s.ledger) && t.kind.Final? && t.turn == Some(u)
    requires u in s.ledger.runs && s.ledger.runs[u].thread == t.thread && s.ledger.runs[u].synced
    ensures var s' := Next(s, Handle(t, Handling(false, delivered, true, true)));
      && u in s'.ledger.runs && s'.ledger.runs[u] == s.ledger.runs[u].(status := COMPLETED, emitted := true)
      && s'.granted == (if s.ledger.runs[u].emitted then s.granted else s.granted + [u])
  {
    HandledExactly(s.ledger, t, Handling(false, delivered, true, true));
    assert MarkedBy(s.ledger, t, Handling(false, delivered, true, true)) == s.ledger.runs[u].(status := COMPLETED);
  }

  lemma CurrentTurnIsHandled(s: State, t: Ticket)
    requires t.kind == TurnEnded(COMPLETED) && t.turn.Some? && t.turn.value in s.ledger.runs
    requires s.ledger.runs[t.turn.value] == Run(t.turn.value, t.thread, COMPLETED, false, false, false)
    ensures var s' := Next(s, Handle(t, Handling(true, true, true, true))); var u := t.turn.value;
      && s'.granted == s.granted + [u]
      && u in s'.ledger.runs && s'.ledger.runs[u] == Run(u, t.thread, COMPLETED, true, true, false)
  {
    var u := t.turn.value;
    var run := Run(u, t.thread, COMPLETED, true, false, false);
    assert MarksOf(s.ledger, t, Handling(true, true, true, true)) == Put(s.ledger, run);
    assert Marked(Put(s.ledger, run), t.thread, t.turn) == Some(run);
    ClaimIsOneMark(Put(s.ledger, run), t.thread, t.turn, true);
  }

  // ---- ordinary surroundings unseal nothing ----

  // A turn id belongs to one thread, a turn ends with a status the code calls final, and a
  // final item names its turn or comes while its thread has a run.
  ghost predicate Regular(s: State, step: Step, owner: TurnId -> ThreadId) {
    step.Local? ==>
      && (step.event.turn.Some? ==> owner(step.event.turn.value) == step.event.thread)
      && (step.event.kind.TurnEnded? ==> Finished(step.event.kind.status))
      && (step.event.kind.Final? ==> step.event.turn.Some? || CurrentRun(s.ledger, step.event.thread).Some?)
  }

  ghost predicate RegularRun(s: State, steps: seq<Step>, owner: TurnId -> ThreadId)
    decreases |steps|
  {
    steps == [] || (Regular(s, steps[0], owner) && RegularRun(Next(s, steps[0]), steps[1..], owner))
  }

  // Every run belongs to the thread that owns its turn, and is that thread's to make current.
  ghost predicate Owned(l: Ledger, owner: TurnId -> ThreadId) {
    && Stored(l)
    && (forall u {:trigger l.runs[u]} :: u in l.runs ==> l.runs[u].thread == owner(u))
    && (forall th {:trigger l.current[th]} :: th in l.current ==> l.runs[l.current[th]].thread == th)
  }

  // A ticket ends its turn with a final status, or stands for a run that has one.
  ghost predicate TicketOk(l: Ledger, t: Ticket, owner: TurnId -> ThreadId) {
    match t.kind
    case TurnEnded(status) => Finished(status)
    case _ =>
      && t.turn.Some? && t.turn.value in l.runs
      && owner(t.turn.value) == t.thread && Finished(l.runs[t.turn.value].status)
  }

  ghost predicate Ordinary(s: State, owner: TurnId -> ThreadId) {
    Owned(s.ledger, owner) && s.passed <= s.tickets && forall t <- s.tickets :: TicketOk(s.ledger, t, owner)
  }

  // Finished runs stay finished, though one final status may give way to another.
  predicate KeepsFinished(l: Ledger, l': Ledger) {
    forall u <- l.runs :: Finished(l.runs[u].status) ==> u in l'.runs && Finished(l'.runs[u].status)
  }

  lemma PutKeepsOwned(l: Ledger, run: Run, owner: TurnId -> ThreadId)
    requires Owned(l, owner) && run.turn in l.runs && run.thread == l.runs[run.turn].thread
    requires Finished(l.runs[run.turn].status) ==> Finished(run.status)
    ensures Owned(Put(l, run), owner) && KeepsFinished(l, Put(l, run))
  {
  }

  lemma StartKeepsOwned(l: Ledger, e: Event, owner: TurnId -> ThreadId)
    requires Owned(l, owner) && (e.turn.Some? ==> owner(e.turn.value) == e.thread)
    ensures Owned(AfterStart(l, e), owner) && KeepsFinished(l, AfterStart(l, e))
  {
    var u := Starts(l, e);
    if u.Some? && u.value in l.runs {
      RestartedExactly(l, e, u.value);
    }
  }

  lemma TakenInKeepsOwned(l: Ledger, e: Event, owner: TurnId -> ThreadId)
    requires Owned(l, owner) && (e.kind.TurnEnded? ==> Finished(e.kind.status))
    ensures Owned(TakenIn(l, e), owner) && KeepsFinished(l, TakenIn(l, e))
  {
    var run := Marked(l, e.thread, e.turn);
    if run.Some? && !e.kind.TurnStarted? {
      MarkedIsStored(l, e.thread, e.turn);
      TakenInIsOneMark(l, e);
      PutKeepsOwned(BeforeMark(l, e), EventMark(run.value, e.kind), owner);
    }
  }

  // No event takes a finished run out of the finished statuses.
  lemma LocalKeepsFinished(l: Ledger, e: Event, owner: TurnId -> ThreadId)
    requires Owned(l, owner) && (e.turn.Some? ==> owner(e.turn.value) == e.thread)
    requires e.kind.TurnEnded? ==> Finished(e.kind.status)
    ensures Owned(LocalUpdate(l, e), owner) && KeepsFinished(l, LocalUpdate(l, e))
  {
    StartKeepsOwned(l, e, owner);
    TakenInKeepsOwned(AfterStart(l, e), e, owner);
  }

  lemma NewTicketOk(s: State, e: Event, t: Ticket, owner: TurnId -> ThreadId)
    requires Ordinary(s, owner) && Regular(s, Local(e), owner) && t in NewTickets(s.ledger, e)
    ensures TicketOk(LocalUpdate(s.ledger, e), t, owner)
  {
    var l1 := AfterStart(s.ledger, e);
    StartKeepsOwned(s.ledger, e, owner);
    if e.kind.Final? {
      assert Marked(l1, e.thread, e.turn).Some?;
      MarkedIsStored(l1, e.thread, e.turn);
    }
  }

  lemma HandledKeepsOwned(l: Ledger, t: Ticket, h: Handling, owner: TurnId -> ThreadId)
    requires Owned(l, owner) && TicketOk(l, t, owner)
    ensures Owned(Handled(l, t, h).0, owner) && KeepsFinished(l, Handled(l, t, h).0)
  {
    if Marked(l, t.thread, t.turn).Some? {
      MarkedIsStored(l, t.thread, t.turn);
      HandledExactly(l, t, h);
      var marked := MarkedBy(l, t, h);
      PutKeepsOwned(l, marked, owner);
      PutKeepsOwned(Put(l, marked), marked.(emitted := true), owner);
    }
  }

  lemma OrdinaryKeeps(s: State, step: Step, owner: TurnId -> ThreadId)
    requires Ordinary(s, owner) && Enabled(s, step) && Regular(s, step, owner)
    ensures Ordinary(Next(s, step), owner)
  {
    match step
    case Local(e) =>
      LocalKeepsFinished(s.ledger, e, owner);
      forall t <- NewTickets(s.ledger, e) ensures TicketOk(LocalUpdate(s.ledger, e), t, owner) {
        NewTicketOk(s, e, t, owner);
      }
    case Look(_) =>
    case Handle(t, h) => HandledKeepsOwned(s.ledger, t, h, owner);
  }

  lemma OrdinaryIsCareful(s: State, step: Step, owner: TurnId -> ThreadId)
    requires Ordinary(s, owner) && Enabled(s, step) && Regular(s, step, owner)
    ensures !Unseals(s, step)
  {
  }

  lemma {:induction false} RegularRunIsCareful(s: State, steps: seq<Step>, owner: TurnId -> ThreadId)
    requires Ordinary(s, owner) && ValidRun(s, steps) && RegularRun(s, steps, owner)
    ensures Careful(s, steps)
    decreases |steps|
  {
    if steps != [] {
      OrdinaryKeeps(s, steps[0], owner);
      OrdinaryIsCareful(s, steps[0], owner);
      RegularRunIsCareful(Next(s, steps[0]), steps[1..], owner);
    }
  }

  // So with regular events a stored run is announced at most once.
  lemma RegularRunsNotifyOnce(steps: seq<Step>, owner: TurnId -> ThreadId)
    requires ValidRun(Init, steps) && RegularRun(Init, steps, owner)
    ensures !Repeats(After(Init, steps).granted)
  {
    RegularRunIsCareful(Init, steps, owner);
    NotifiedAtMostOnce(steps);
  }

  // ---- a run for each way to unseal ----

  ghost predicate RunRepeats(s: State) {
    exists steps :: ValidRun(s, steps) && Repeats(After(s, steps).granted)
  }

  lemma RunRepeatsLater(s: State, step: Step)
    requires Enabled(s, step) && RunRepeats(Next(s, step))
    ensures RunRepeats(s)
  {
    var rest :| ValidRun(Next(s, step), rest) && Repeats(After(Next(s, step), rest).granted);
    var steps := [step] + rest;
    assert steps[0] == step && steps[1..] == rest;
    assert ValidRun(s, steps) && After(s, steps) == After(Next(s, step), rest);
  }

  const Straight := Handling(true, false, true, true)

  // The other spelling of "cancelled" is not a final status.
  lemma CanceledRunIsAnnouncedTwice()
    ensures RunRepeats(Init)
  {
    var e1, e2 := Event(TurnStarted, 0, Some(1), true), Event(TurnEnded(CANCELED), 0, Some(1), true);
    var t := Ticket(0, Some(1), e2.kind);
    var s1 := State(Ledger(map[1 := Run(1, 0, STARTED, false, false, false)], map[0 := 1], {0}), {}, {}, []);
    assert Next(Init, Local(e1)) == s1;
    var s2 := State(Ledger(map[1 := Run(1, 0, CANCELED, false, false, false)], map[0 := 1], {}), {t}, {}, []);
    CanceledIsTakenIn(s1, e2);
    var s3 := s2.(passed := {t});
    assert Next(s2, Look(t)) == s3;
    CanceledIsOpen(s3, t);
    AnnouncedAgainExactly(s3, Handle(t, Straight));
    RunRepeatsLater(s3, Handle(t, Straight));
    RunRepeatsLater(s2, Look(t));
    RunRepeatsLater(s1, Local(e2));
    RunRepeatsLater(Init, Local(e1));
  }

  lemma CanceledIsOpen(s: State, t: Ticket)
    requires t == Ticket(0, Some(1), TurnEnded(CANCELED))
    requires s == State(Ledger(map[1 := Run(1, 0, CANCELED, false, false, false)], map[0 := 1], {}), {t}, {t}, [])
    ensures Inv(s) && Unseals(s, Handle(t, Straight))
  {
  }

  lemma CanceledIsTakenIn(s: State, e: Event)
    requires s == State(Ledger(map[1 := Run(1, 0, STARTED, false, false, false)], map[0 := 1], {0}), {}, {}, [])
    requires e == Event(TurnEnded(CANCELED), 0, Some(1), true)
    ensures Next(s, Local(e)) ==
      State(Ledger(map[1 := Run(1, 0, CANCELED, false, false, false)], map[0 := 1], {}),
            {Ticket(0, Some(1), e.kind)}, {}, [])
  {
    assert Accepts(s.ledger, e);
    assert AfterStart(s.ledger, e) == s.ledger;
  }

  // A final item without a turn id waits; its handler announces the run that has started
  // in the meantime.
  lemma UnnamedFinalIsAnnouncedTwice()
    ensures RunRepeats(Init)
  {
    var e1, e2 := Event(Final, 0, None, true), Event(TurnStarted, 0, Some(1), true);
    var t := Ticket(0, None, Final);
    var s1 := State(EmptyLedger, {t}, {}, []);
    assert Next(Init, Local(e1)) == s1;
    var s2 := State(Ledger(map[1 := Run(1, 0, STARTED, false, false, false)], map[0 := 1], {0}), {t}, {}, []);
    assert Next(s1, Local(e2)) == s2;
    AnnouncedAgainExactly(s2, Handle(t, Straight));
    RunRepeatsLater(s2, Handle(t, Straight));
    RunRepeatsLater(s1, Local(e2));
    RunRepeatsLater(Init, Local(e1));
  }
}
