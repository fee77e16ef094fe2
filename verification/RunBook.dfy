/** The ledger, updated in place by the event path. */
module RunBook {
  import opened Prelude
  import opened RunLedger
  import opened RunLedgerProofs

  class RunState {
    var runs: map<TurnId, Run>
    var threadCurrentRuns: map<ThreadId, TurnId>
    var activeThreads: set<ThreadId>
    ghost var tickets: set<Ticket>
    ghost var passed: set<Ticket>
    ghost var granted: seq<TurnId>

    ghost function Now(): Ledger
      reads this
    {
      Ledger(runs, threadCurrentRuns, activeThreads)
    }

    ghost function History(): State
      reads this
    {
      State(Now(), tickets, passed, granted)
    }

    constructor ()
      ensures History() == Init && Inv(History())
    {
      runs, threadCurrentRuns, activeThreads := map[], map[], {};
      tickets, passed, granted := {}, {}, [];
    }

    method GetCurrentRun(th: ThreadId) returns (run: Option<Run>)
      ensures run == CurrentRun(Now(), th)
    {
      if th in threadCurrentRuns && threadCurrentRuns[th] in runs {
        return Some(runs[threadCurrentRuns[th]]);
      }
      return None;
    }

    method GetRunForTurn(th: ThreadId, turn: TurnId) returns (run: Option<Run>)
      ensures run == RunForTurn(Now(), th, turn)
    {
      if turn in runs && runs[turn].thread == th {
        return Some(runs[turn]);
      }
      return None;
    }

    method StartRun(th: ThreadId, turn: TurnId) returns (run: Run)
      modifies this`runs, this`threadCurrentRuns
      ensures Now() == Start(old(Now()), th, turn) && run == runs[turn]
    {
      run := Run(turn, th, STARTED, false, false, false);
      runs := runs[turn := run];
      threadCurrentRuns := threadCurrentRuns[th := turn];
    }

    // mark_provider_run, without its timestamps.
    method MarkRun(th: ThreadId, turn: Option<TurnId>, status: Option<RunStatus>, synced: bool, progressed: bool,
                   emitted: bool)
      modifies this`runs
      ensures Now() == match Marked(old(Now()), th, turn)
                       case None => old(Now())
                       case Some(run) => Put(old(Now()), run.(
                         status := if status.Some? then status.value else run.status, synced := run.synced || synced,
                         progressed := run.progressed || progressed, emitted := run.emitted || emitted))
    {
      var run: Option<Run>;
      if turn.Some? {
        run := GetRunForTurn(th, turn.value);
      } else {
        run := GetCurrentRun(th);
      }
      if run.None? {
        return;
      }
      var changed := run.value;
      if status.Some? {
        changed := changed.(status := status.value);
      }
      if synced {
        changed := changed.(synced := true);
      }
      if progressed {
        changed := changed.(progressed := true);
      }
      if emitted {
        changed := changed.(emitted := true);
      }
      runs := runs[changed.turn := changed];
    }

    method UpdateLocal(e: Event) returns (accepted: bool)
      modifies this`runs, this`threadCurrentRuns, this`activeThreads
      ensures Now() == LocalUpdate(old(Now()), e) && accepted == Accepts(old(Now()), e)
    {
      if !e.allowed {
        return false;
      }
      var run := GetCurrentRun(e.thread);
      if e.kind.TurnStarted? {
        if e.turn.Some? {
          var previous := GetRunForTurn(e.thread, e.turn.value);
          if previous.Some? && (previous.value.synced || Finished(previous.value.status)) {
            return false;
          }
          if run.None? || run.value.turn != e.turn.value {
            var started := StartRun(e.thread, e.turn.value);
            run := Some(started);
          }
        }
        if run.None? || !Finished(run.value.status) {
          activeThreads := activeThreads + {e.thread};
        }
        return true;
      }
      if run.Some? && e.turn.Some? && run.value.turn != e.turn.value {
        return false;
      }
      if e.kind.Delta? || e.kind.Final? {
        if run.None? && e.turn.Some? {
          var _ := StartRun(e.thread, e.turn.value);
        }
        MarkRun(e.thread, e.turn, if e.kind.Final? then Some(COMPLETED) else None, false, true, false);
      } else if e.kind.TurnEnded? {
        activeThreads := activeThreads - {e.thread};
        MarkRun(e.thread, e.turn, Some(e.kind.status), false, false, false);
      }
      return true;
    }

    // update_local, and the event queued for its handler when it closes a turn.
    method ConsumeEvent(e: Event) returns (accepted: bool)
      requires Inv(History())
      modifies this
      ensures History() == Next(old(History()), Local(e)) && accepted == Accepts(old(Now()), e)
      ensures Inv(History()) <==> !Unseals(old(History()), Local(e))
    {
      StepKeepsExactly(History(), Local(e));
      tickets := tickets + NewTickets(Now(), e);
      accepted := UpdateLocal(e);
    }

    method ClaimNotification(th: ThreadId, turn: Option<TurnId>, streamFree: bool) returns (ok: bool)
      modifies this`runs
      ensures (Now(), ok) == Claim(old(Now()), th, turn, streamFree)
    {
      if !streamFree {
        return false;
      }
      var run: Option<Run> := None;
      if turn.Some? {
        run := GetRunForTurn(th, turn.value);
      }
      if run.None? {
        run := GetCurrentRun(th);
      }
      if run.None? || (turn.Some? && run.value.turn != turn.value) {
        return true;
      }
      if run.value.emitted {
        return false;
      }
      MarkRun(th, turn, None, false, false, true);
      return true;
    }

    method ReplyAlreadySynced(th: ThreadId, turn: Option<TurnId>) returns (yes: bool)
      ensures yes == AlreadySynced(Now(), th, turn)
    {
      var run: Option<Run> := None;
      if turn.Some? {
        run := GetRunForTurn(th, turn.value);
      }
      if run.None? {
        run := GetCurrentRun(th);
      }
      return run.Some? && run.value.synced && (turn.None? || run.value.turn == turn.value);
    }

    // The last stretch of _handle_item_completed for a final item.
    method HandleItemCompleted(t: Ticket, h: Handling)
      requires Inv(History()) && t in tickets && t.kind.Final?
      modifies this`runs, this`granted
      ensures History() == Next(old(History()), Handle(t, h))
      ensures Inv(History()) <==> !Unseals(old(History()), Handle(t, h))
    {
      ghost var before := History();
      MarkItem(t, h);
      ClaimIfReached(t, h, before.ledger);
      assert History() == Next(before, Handle(t, h));
      StepKeepsExactly(before, Handle(t, h));
    }

    method MarkItem(t: Ticket, h: Handling)
      requires Stored(Now()) && t.kind.Final?
      modifies this`runs
      ensures MarksOf(old(Now()), t, h) == Now()
    {
      var synced := ReplyAlreadySynced(t.thread, t.turn);
      if !h.streaming && synced {
        MarkRun(t.thread, t.turn, Some(COMPLETED), false, false, false);
      } else {
        MarkDelivered(t, h.delivered);
      }
    }

    method MarkDelivered(t: Ticket, delivered: bool)
      requires Stored(Now())
      modifies this`runs
      ensures Now() == match Marked(old(Now()), t.thread, t.turn)
                       case None => old(Now())
                       case Some(run) => Put(old(Now()), run.(synced := run.synced || delivered))
    {
      if delivered {
        MarkRun(t.thread, t.turn, None, true, false, false);
      } else if Marked(Now(), t.thread, t.turn).Some? {
        UnmarkedPut(Now(), t.thread, t.turn);
      }
    }

    // _handle_turn_completed up to its first await; `go` is false when it returns at once.
    method LookAtTurn(t: Ticket) returns (go: bool)
      requires Inv(History()) && t in tickets && t.kind.TurnEnded?
      modifies this`passed
      ensures History() == Next(old(History()), Look(t)) && Inv(History())
      ensures go == !Stale(Now(), t) && (go ==> t in passed)
    {
      StepKeepsExactly(History(), Look(t));
      var stale := IsStale(t);
      go := !stale;
      if go {
        passed := passed + {t};
      }
    }

    // The last stretch of _handle_turn_completed, whatever has come in since.
    method HandleTurnCompleted(t: Ticket, h: Handling)
      requires Inv(History()) && t in passed && t.kind.TurnEnded?
      modifies this`runs, this`granted
      ensures History() == Next(old(History()), Handle(t, h))
      ensures Inv(History()) <==> !Unseals(old(History()), Handle(t, h))
    {
      ghost var before := History();
      MarkTurn(t, h);
      ClaimIfReached(t, h, before.ledger);
      assert History() == Next(before, Handle(t, h));
      StepKeepsExactly(before, Handle(t, h));
    }

    method IsStale(t: Ticket) returns (stale: bool)
      requires t.kind.TurnEnded?
      ensures stale == Stale(Now(), t)
    {
      var synced := ReplyAlreadySynced(t.thread, t.turn);
      if t.turn.None? || !synced {
        return false;
      }
      var current := GetCurrentRun(t.thread);
      return current.Some? && current.value.turn != t.turn.value;
    }

    method MarkTurn(t: Ticket, h: Handling)
      requires Stored(Now()) && t.kind.TurnEnded?
      modifies this`runs
      ensures MarksOf(old(Now()), t, h) == Now()
    {
      if Marked(Now(), t.thread, t.turn).Some? { TwoMarks(Now(), t, h); }
      MarkDelivered(t, h.delivered);
      MarkRun(t.thread, t.turn, Some(t.kind.status), false, false, false);
    }

    method ClaimIfReached(t: Ticket, h: Handling, ghost was: Ledger)
      requires MarksOf(was, t, h) == Now()
      modifies this`runs, this`granted
      ensures var (l, u) := Handled(was, t, h);
        Now() == l && granted == match u case None => old(granted) case Some(turn) => old(granted) + [turn]
    {
      if h.claims {
        ghost var run := Marked(Now(), t.thread, t.turn);
        var ok := ClaimNotification(t.thread, t.turn, h.streamFree);
        if ok && run.Some? {
          granted := granted + [run.value.turn];
        }
      }
    }
  }
}
