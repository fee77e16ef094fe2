/**
 Task admission and the app-update lease: a timed reader/writer lock.

 Readers are the open `task_admission` blocks; the writer is an app update, which
 holds the lock until its deadline passes or it is cancelled.  Background send and
 creation tasks outlive the admitted handler that started them, and a creation task opens
 a nested admission of its own.  Provider hook events start tasks with no admission at
 all: the lease waits for those that run, but does not keep new ones out.  The clock is
 any non-decreasing integer.
*/
module UpdateLease {
  import opened Prelude

  const LEASE_SECONDS := 30

  // One open `with state.task_admission()` block.
  datatype Admission = Handler(id: nat) | Nested(task: nat)

  datatype Gate = Gate(
    now: int,
    deadline: int,           // app_update_deadline
    dispatches: int,         // active_task_dispatches
    open: set<Admission>,    // the admission blocks that are open
    tasks: set<nat>,         // unfinished sends and creations in _pending_send_tasks
    hooks: set<nat>)         // unfinished hook events in _pending_send_tasks

  const IdleGate := Gate(0, 0, 0, {}, {}, {})

  predicate Leased(g: Gate) {
    g.now < g.deadline
  }

  // Entering the context manager; None is the RuntimeError it raises.
  function Admit(g: Gate, a: Admission): Option<Gate> {
    if g.deadline > g.now then None
    else Some(g.(dispatches := g.dispatches + 1, open := g.open + {a}))
  }

  function Release(g: Gate, a: Admission): Gate {
    g.(dispatches := g.dispatches - 1, open := g.open - {a})
  }

  function Spawn(g: Gate, t: nat): Gate {
    g.(tasks := g.tasks + {t})
  }

  function Finish(g: Gate, t: nat): Gate {
    g.(tasks := g.tasks - {t})
  }

  // `otherBusy` stands for the activity, runtime and stored-record tests of the handler.
  function Prepare(g: Gate, otherBusy: bool): (Gate, bool) {
    if g.dispatches != 0 || g.tasks + g.hooks != {} || otherBusy then (g, false)
    else (g.(deadline := g.now + LEASE_SECONDS), true)
  }

  datatype GateEvent =
    | Enter(a: Admission)
    | Leave(a: Admission)
    | Start(handler: nat, task: nat)
    | End(task: nat)
    | HookStarts(hook: nat)
    | HookEnds(hook: nat)
    | PrepareUpdate(otherBusy: bool)
    | CancelUpdate
    | Tick(elapsed: nat)

  // What the owner bridge may do next: only a handler that is still admitted starts a send
  // or a creation, and only an unfinished one opens a nested admission.  A hook event comes
  // at any time.
  predicate GateEnabled(g: Gate, e: GateEvent) {
    match e
    case Enter(a) => a !in g.open && (a.Nested? ==> a.task in g.tasks)
    case Leave(a) => a in g.open
    case Start(h, t) => Handler(h) in g.open && t !in g.tasks
    case End(t) => t in g.tasks && Nested(t) !in g.open
    case _ => true
  }

  function GateNext(g: Gate, e: GateEvent): Gate {
    match e
    case Enter(a) => (match Admit(g, a) case Some(g') => g' case None => g)
    case Leave(a) => Release(g, a)
    case Start(_, t) => Spawn(g, t)
    case End(t) => Finish(g, t)
    case HookStarts(t) => g.(hooks := g.hooks + {t})
    case HookEnds(t) => g.(hooks := g.hooks - {t})
    case PrepareUpdate(busy) => Prepare(g, busy).0
    case CancelUpdate => g.(deadline := 0)
    case Tick(d) => g.(now := g.now + d)
  }

  // The exclusion property, with the counter agreeing with the open blocks.
  predicate Exclusive(g: Gate) {
    && g.dispatches == |g.open|
    && 0 <= g.now
    && (Leased(g) ==> g.open == {} && g.tasks == {})
  }

  lemma NextKeepsExclusion(g: Gate, e: GateEvent)
    requires Exclusive(g) && GateEnabled(g, e)
    ensures Exclusive(GateNext(g, e))
  {
    match e
    case PrepareUpdate(_) =>
      if g.dispatches == 0 { assert g.open == {}; }
    case _ =>
  }

  ghost predicate GateRun(g: Gate, es: seq<GateEvent>)
    decreases |es|
  {
    es == [] || (GateEnabled(g, es[0]) && GateRun(GateNext(g, es[0]), es[1..]))
  }

  ghost function GateAfter(g: Gate, es: seq<GateEvent>): Gate
    decreases |es|
  {
    if es == [] then g else GateAfter(GateNext(g, es[0]), es[1..])
  }

  // Over every run: while the lease is held nothing is admitted and no send or creation is
  // in flight, and the counter counts the open admissions.
  lemma {:induction false} LeaseExcludesWork(g: Gate, es: seq<GateEvent>)
    requires Exclusive(g) && GateRun(g, es)
    ensures Exclusive(GateAfter(g, es))
    decreases |es|
  {
    if es != [] {
      NextKeepsExclusion(g, es[0]);
      LeaseExcludesWork(GateNext(g, es[0]), es[1..]);
    }
  }

  // An unfinished background task, and a handler that is already admitted, are never
  // refused a further admission, at any point of any run.
  lemma NestedAdmissionSucceeds(es: seq<GateEvent>, t: nat)
    requires GateRun(IdleGate, es)
    requires t in GateAfter(IdleGate, es).tasks || Handler(t) in GateAfter(IdleGate, es).open
    ensures Admit(GateAfter(IdleGate, es), Nested(t)).Some?
  {
    LeaseExcludesWork(IdleGate, es);
  }

  // A lease is granted exactly when nothing is admitted, pending or busy.
  lemma GrantedExactly(g: Gate, otherBusy: bool)
    requires Exclusive(g)
    ensures Prepare(g, otherBusy).1 <==> g.open == {} && g.tasks == {} && g.hooks == {} && !otherBusy
  {
    if g.dispatches == 0 { assert g.open == {}; }
  }

  predicate LeavesLease(es: seq<GateEvent>) {
    forall e <- es :: !e.CancelUpdate? && !e.PrepareUpdate?
  }

  lemma {:induction false} DeadlineStays(g: Gate, es: seq<GateEvent>)
    requires LeavesLease(es)
    ensures GateAfter(g, es).deadline == g.deadline
    decreases |es|
  {
    if es != [] {
      assert es[0] in es && forall e <- es[1..] :: e in es;
      DeadlineStays(GateNext(g, es[0]), es[1..]);
    }
  }

  // Until it is cancelled or renewed, a granted lease keeps everyone out for thirty seconds,
  // and nobody for longer.
  lemma LeaseLastsThirtySeconds(g: Gate, otherBusy: bool, es: seq<GateEvent>, a: Admission)
    requires Prepare(g, otherBusy).1 && LeavesLease(es)
    ensures var g' := GateAfter(Prepare(g, otherBusy).0, es); Admit(g', a).None? <==> g'.now < g.now + 30
  {
    DeadlineStays(Prepare(g, otherBusy).0, es);
  }

  // Once it is cancelled everyone is let in.
  lemma CancelledLeaseLetsIn(g: Gate, a: Admission)
    requires Exclusive(g)
    ensures Admit(GateNext(g, CancelUpdate), a).Some?
  {
  }

  // The hook events that came in and have not ended.
  predicate HookPending(es: seq<GateEvent>, t: nat) {
    exists i :: 0 <= i < |es| && es[i] == HookStarts(t) && forall j :: i < j < |es| ==> es[j] != HookEnds(t)
  }

  lemma {:induction false} HooksAfterRun(g: Gate, es: seq<GateEvent>, t: nat)
    ensures t in GateAfter(g, es).hooks <==> HookPending(es, t) || (t in g.hooks && HookEnds(t) !in es)
    decreases |es|
  {
    if es != [] {
      HooksAfterRun(GateNext(g, es[0]), es[1..], t);
      assert es == [es[0]] + es[1..];
      assert HookPending(es[1..], t) ==> HookPending(es, t) by {
        if HookPending(es[1..], t) {
          var i :| 0 <= i < |es| - 1 && es[1..][i] == HookStarts(t)
                   && forall j :: i < j < |es| - 1 ==> es[1..][j] != HookEnds(t);
          assert es[i + 1] == HookStarts(t) && forall j :: i + 1 < j < |es| ==> es[j] == es[1..][j - 1];
        }
      }
      if i :| 0 < i < |es| && es[i] == HookStarts(t) && forall j :: i < j < |es| ==> es[j] != HookEnds(t) {
        assert es[1..][i - 1] == HookStarts(t) && forall j :: i - 1 < j < |es| - 1 ==> es[1..][j] == es[j + 1];
      }
    }
  }

  // From the moment a lease is granted, a hook task runs if and only if its event came in
  // since then and has not ended; nothing stops it from coming in.
  lemma HookRunsUnderLeaseExactly(g: Gate, otherBusy: bool, es: seq<GateEvent>, t: nat)
    requires Prepare(g, otherBusy).1
    ensures t in GateAfter(Prepare(g, otherBusy).0, es).hooks <==> HookPending(es, t)
    ensures GateEnabled(GateAfter(Prepare(g, otherBusy).0, es), HookStarts(t))
  {
    HooksAfterRun(Prepare(g, otherBusy).0, es, t);
  }

  // The fields of the state and of the bridge that make up the lock.
  class AdmissionGate {
    var appUpdateDeadline: int
    var activeTaskDispatches: int
    var pendingSendTasks: set<nat>
    ghost var open: set<Admission>
    ghost var hooks: set<nat>         // the pending tasks that dispatch a hook event

    ghost function At(now: int): Gate
      reads this
    {
      Gate(now, appUpdateDeadline, activeTaskDispatches, open, pendingSendTasks - hooks, hooks)
    }

    constructor ()
      ensures At(0) == IdleGate
    {
      appUpdateDeadline, activeTaskDispatches := 0, 0;
      pendingSendTasks, open, hooks := {}, {}, {};
    }

    method EnterAdmission(now: int, ghost a: Admission) returns (admitted: bool)
      modifies this
      ensures admitted == Admit(old(At(now)), a).Some?
      ensures At(now) == if admitted then Admit(old(At(now)), a).value else old(At(now))
    {
      if appUpdateDeadline > now {
        return false;
      }
      activeTaskDispatches := activeTaskDispatches + 1;
      open := open + {a};
      return true;
    }

    method LeaveAdmission(now: int, ghost a: Admission)
      modifies this
      ensures At(now) == Release(old(At(now)), a)
    {
      activeTaskDispatches := activeTaskDispatches - 1;
      open := open - {a};
    }

    method PrepareAppUpdate(now: int, otherBusy: bool) returns (granted: bool)
      requires Exclusive(At(now)) && hooks <= pendingSendTasks
      modifies this
      ensures (At(now), granted) == Prepare(old(At(now)), otherBusy) && hooks <= pendingSendTasks
      ensures granted ==> old(open) == {} && old(pendingSendTasks) == {}
      ensures Exclusive(At(now))
    {
      NextKeepsExclusion(At(now), PrepareUpdate(otherBusy));
      if activeTaskDispatches != 0 || pendingSendTasks != {} || otherBusy {
        return false;
      }
      appUpdateDeadline := now + LEASE_SECONDS;
      return true;
    }

    // _handle_provider_hook_event: no admission is asked for.
    method StartHookEvent(now: int, task: nat)
      requires Exclusive(At(now)) && hooks <= pendingSendTasks && task !in pendingSendTasks
      modifies this
      ensures At(now) == GateNext(old(At(now)), HookStarts(task)) && hooks <= pendingSendTasks
      ensures Exclusive(At(now))
    {
      pendingSendTasks := pendingSendTasks + {task};
      hooks := hooks + {task};
      assert pendingSendTasks - hooks == old(pendingSendTasks - hooks);
    }

    // The done callback of a hook event.
    method DiscardHookEvent(now: int, task: nat)
      requires hooks <= pendingSendTasks && task in hooks
      modifies this
      ensures At(now) == GateNext(old(At(now)), HookEnds(task)) && hooks <= pendingSendTasks
    {
      pendingSendTasks := pendingSendTasks - {task};
      hooks := hooks - {task};
      assert pendingSendTasks - hooks == old(pendingSendTasks - hooks);
    }
  }
}
