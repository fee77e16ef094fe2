/**
 Bringing the threads of a workspace in line with what its provider lists: which are shown
 as active, which are hidden as archived, and which are dropped.
*/
module Reconcile {
  import opened Prelude
  import opened Storage
  import opened Strings

  // What one pass looks at besides the threads.
  datatype Facts = Facts(
    active: set<string>,                  // ids the provider lists as active
    listed: Option<set<string>>,          // ids it lists at all, when that list is authoritative
    preserve: bool,                       // the provider keeps archived threads archived
    routed: Option<set<string>>)          // thread ids with a topic, when there is a route store

  type Threads = map<string, ThreadInfo>

  predicate FromApp(t: ThreadInfo) {
    Lower(Strip(if t.source == "" then "unknown" else t.source)) == "app"
  }

  predicate HasTopic(t: ThreadInfo, f: Facts) {
    match f.routed case Some(ids) => t.threadId in ids case None => t.topicId.Some?
  }

  // The thread id is missing from an authoritative list.
  predicate Unlisted(key: string, f: Facts) {
    f.listed.Some? && key !in f.listed.value + f.active
  }

  // clear_stale_thread_archive_if_active
  predicate StaleArchive(t: ThreadInfo, f: Facts) {
    t.archived && t.archiveMode != "local_overlay" && !f.preserve && t.threadId in f.active
  }

  function Cleared(t: ThreadInfo, f: Facts): ThreadInfo {
    if StaleArchive(t, f) then t.(archived := false, isActive := true) else t
  }

  predicate Droppable(t: ThreadInfo, f: Facts) {
    f.preserve && !HasTopic(t, f) && !FromApp(t)
  }

  // What one pass makes of a thread; None when it drops it.
  function Verdict(key: string, t: ThreadInfo, f: Facts): Option<ThreadInfo> {
    if Unlisted(key, f) then
      if Droppable(t, f) then None else Some(t.(archived := true, isActive := false))
    else if Droppable(t, f) && key !in f.active && !t.archived then None
    else Some(Cleared(t.(isActive := key in f.active), f))
  }

  function Reconciled(threads: Threads, f: Facts): Threads {
    map k | k in threads && Verdict(k, threads[k], f).Some? :: Verdict(k, threads[k], f).value
  }

  class Workspace {
    var threads: Threads

    method ClearStaleArchive(key: string, f: Facts) returns (changed: bool)
      requires key in threads
      modifies this
      ensures threads == old(threads)[key := Cleared(old(threads)[key], f)]
      ensures changed == (threads != old(threads))
    {
      var t := threads[key];
      if !t.archived || t.archiveMode == "local_overlay" || f.preserve || t.threadId !in f.active {
        return false;
      }
      threads := threads[key := t.(archived := false, isActive := true)];
      assert threads[key] != old(threads)[key];
      return true;
    }

    // One thread: whether it is to be dropped, and whether the pass has changed anything.
    method VisitThread(key: string, f: Facts) returns (drop: bool, changed: bool)
      requires key in threads
      modifies this
      ensures drop == Verdict(key, old(threads)[key], f).None?
      ensures threads == if drop then old(threads) else old(threads)[key := Verdict(key, old(threads)[key], f).value]
      ensures changed == Altered(key, old(threads)[key], f)
    {
      var t := threads[key];
      if f.preserve && f.listed.Some? && key !in f.listed.value + f.active && !HasTopic(t, f) && !FromApp(t) {
        return true, true;
      }
      changed := false;
      if f.listed.Some? && key !in f.listed.value + f.active {
        if !t.archived {
          threads := threads[key := threads[key].(archived := true)];
          changed := true;
        }
        if t.isActive {
          threads := threads[key := threads[key].(isActive := false)];
          changed := true;
        }
        assert changed ==> threads[key] != old(threads)[key];
        return false, changed;
      }
      var nextActive := key in f.active;
      if f.preserve && !nextActive && !t.archived && !HasTopic(t, f) && !FromApp(t) {
        return true, true;
      }
      if t.isActive != nextActive {
        threads := threads[key := t.(isActive := nextActive)];
        changed := true;
        assert threads[key] != old(threads)[key];
      }
      assert threads == old(threads)[key := t.(isActive := nextActive)];
      var cleared := ClearStaleArchive(key, f);
      assert cleared ==> threads[key].archived != old(threads)[key].archived;
      return false, changed || cleared;
    }

    // The result says whether the pass changed the threads; that is when they are saved.
    method ReconcileWithSource(f: Facts) returns (changed: bool)
      modifies this
      ensures threads == Reconciled(old(threads), f)
      ensures changed == (threads != old(threads))
    {
      ghost var was := threads;
      var rest := threads.Keys;
      var removable: set<string> := {};
      changed := false;
      while rest != {}
        invariant rest <= was.Keys && threads == Progress(was, rest, f)
        invariant removable == Dropped(was, rest, f)
        invariant changed == exists k <- was.Keys - rest :: Altered(k, was[k], f)
      {
        var key :| key in rest;
        var drop, c := VisitThread(key, f);
        VisitAdvances(was, rest, key, f);
        rest := rest - {key};
        if drop {
          removable := removable + {key};
        }
        changed := changed || c;
      }
      threads := threads - removable;
      PassIsComplete(was, f);
    }
  }

  // The threads and the keys to drop while the keys in rest are still to be visited.
  function Progress(was: Threads, rest: set<string>, f: Facts): Threads {
    map k | k in was :: if k in rest || Verdict(k, was[k], f).None? then was[k] else Verdict(k, was[k], f).value
  }

  function Dropped(was: Threads, rest: set<string>, f: Facts): set<string> {
    set k | k in was.Keys - rest && Verdict(k, was[k], f).None?
  }

  predicate Altered(key: string, t: ThreadInfo, f: Facts) {
    Verdict(key, t, f) != Some(t)
  }

  lemma VisitAdvances(was: Threads, rest: set<string>, key: string, f: Facts)
    requires key in rest && rest <= was.Keys
    ensures var v := Verdict(key, was[key], f);
      && Progress(was, rest - {key}, f)
         == (if v.None? then Progress(was, rest, f) else Progress(was, rest, f)[key := v.value])
      && Dropped(was, rest - {key}, f) == (if v.None? then Dropped(was, rest, f) + {key} else Dropped(was, rest, f))
  {
  }

  lemma PassIsComplete(was: Threads, f: Facts)
    ensures Progress(was, {}, f) - Dropped(was, {}, f) == Reconciled(was, f)
    ensures Reconciled(was, f) != was <==> exists k <- was :: Altered(k, was[k], f)
  {
    var now := Reconciled(was, f);
    assert (exists k <- was :: Altered(k, was[k], f)) || now == was;
    forall k <- was | Altered(k, was[k], f) ensures now != was {
      assert k !in now || now[k] != was[k];
    }
  }

  // ---- repeated passes ----

  // The pass clears the archive of a thread whose own id is active while the key it is
  // filed under is not.
  predicate Misfiled(key: string, t: ThreadInfo, f: Facts) {
    !Unlisted(key, f) && key !in f.active && StaleArchive(t, f)
  }

  lemma SecondVerdict(key: string, t: ThreadInfo, f: Facts)
    requires Verdict(key, t, f).Some?
    ensures var t' := Verdict(key, t, f).value;
      && Verdict(key, t', f) == Some(if Misfiled(key, t, f) then t'.(isActive := false) else t')
      && (Misfiled(key, t, f) ==> t'.isActive) && !Misfiled(key, t', f)
  {
  }

  // A second pass with the same facts reports no change exactly when no thread was
  // misfiled; filing every thread under its own id is enough.
  lemma SecondPassIsQuiet(threads: Threads, f: Facts)
    ensures var once := Reconciled(threads, f);
      && (Reconciled(once, f) == once <==> forall k <- threads :: !Misfiled(k, threads[k], f))
      && ((forall k <- threads :: threads[k].threadId == k) ==> Reconciled(once, f) == once)
  {
    var once := Reconciled(threads, f);
    var twice := Reconciled(once, f);
    forall k <- once
      ensures k in twice && (Misfiled(k, threads[k], f) <==> twice[k] != once[k])
    {
      SecondVerdict(k, threads[k], f);
    }
    assert forall k <- threads :: Misfiled(k, threads[k], f) ==> k in once;
  }

  // A third pass never changes anything.
  lemma ThirdPassIsQuiet(threads: Threads, f: Facts)
    ensures var twice := Reconciled(Reconciled(threads, f), f); Reconciled(twice, f) == twice
  {
    var once := Reconciled(threads, f);
    forall k <- once ensures !Misfiled(k, once[k], f) {
      SecondVerdict(k, threads[k], f);
    }
    SecondPassIsQuiet(once, f);
  }

  // A thread that stays loses its archive mark exactly when the provider lists it active,
  // the mark is no local overlay and the provider does not preserve archived threads; it
  // gains the mark exactly when the provider no longer lists it.
  lemma ArchiveChangesExactly(threads: Threads, f: Facts, key: string)
    requires key in Reconciled(threads, f) && threads[key].threadId == key
    ensures var was, now := threads[key], Reconciled(threads, f)[key];
      && (was.archived && !now.archived <==>
            was.archived && key in f.active && was.archiveMode != "local_overlay" && !f.preserve)
      && (!was.archived && now.archived <==> !was.archived && Unlisted(key, f))
      && now.isActive == (key in f.active)
  {
  }

  // Only a provider that preserves archived threads has threads dropped, and then only
  // those with no topic that the app did not create and that the provider lists neither as
  // active nor, if they are archived, in its authoritative list.
  predicate Drops(key: string, t: ThreadInfo, f: Facts) {
    f.preserve && !HasTopic(t, f) && !FromApp(t) && key !in f.active && (Unlisted(key, f) || !t.archived)
  }

  lemma DroppedExactly(threads: Threads, f: Facts, key: string)
    requires key in threads
    ensures key !in Reconciled(threads, f) <==> Drops(key, threads[key], f)
    ensures key in Reconciled(threads, f) ==>
      var now := Reconciled(threads, f)[key];
      now == threads[key].(archived := now.archived, isActive := now.isActive)
  {
  }

  // What the app created, and what has a topic, is never dropped.
  lemma ProtectedIsKept(threads: Threads, f: Facts, key: string)
    requires key in threads
    requires || threads[key].source == "app"
             || (f.routed.Some? && threads[key].threadId in f.routed.value)
             || (f.routed.None? && threads[key].topicId.Some?)
    ensures key in Reconciled(threads, f)
  {
    if threads[key].source == "app" {
      StrippedIsFixed("app");
      assert Lower("app") == "app";
    }
  }

  // One archived thread filed under a key that is not its id: the first pass shows it as
  // active, the second takes that back.
  lemma MisfiledThreadChangesTwice()
    ensures exists threads: Threads, f: Facts :: Reconciled(Reconciled(threads, f), f) != Reconciled(threads, f)
  {
    var t := ThreadInfo("b", None, None, true, None, None, None, None, false, "app", "", map[], map[]);
    var threads: Threads := map["a" := t];
    var f := Facts({"b"}, None, false, None);
    assert Misfiled("a", threads["a"], f);
    SecondPassIsQuiet(threads, f);
  }
}
