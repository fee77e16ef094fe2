/**
 Preparing a send may rebind a thread to a fresh provider id.  When the send then fails,
 the handler rolls the binding back.
*/
module ThreadRemap {
  import opened Prelude

  type ThreadId = string

  // The fields that the handler remembers before it prepares the send.
  datatype Binding = Binding(
    threadId: ThreadId,
    topicId: Option<int>,
    preview: Option<string>,
    source: string,
    isActive: bool,
    historySyncCursor: Option<string>,
    streamingMsgId: Option<int>,
    lastUserMessageId: Option<int>)

  class ThreadInfo {
    var binding: Binding
    var archived: bool

    constructor (binding: Binding, archived: bool)
      ensures this.binding == binding && this.archived == archived
    {
      this.binding, this.archived := binding, archived;
    }
  }

  class WorkspaceInfo {
    var threads: map<ThreadId, ThreadInfo>

    constructor ()
      ensures threads == map[]
    {
      threads := map[];
    }
  }

  function Rebound<T>(threads: map<ThreadId, T>, oldId: ThreadId, newId: ThreadId, thread: T): map<ThreadId, T> {
    (threads - {oldId})[newId := thread]
  }

  // Moving an entry there and back restores the map if and only if the new id was free.
  lemma RebindAndBack<T>(threads: map<ThreadId, T>, oldId: ThreadId, newId: ThreadId, thread: T)
    requires oldId in threads && threads[oldId] == thread && oldId != newId
    ensures Rebound(Rebound(threads, oldId, newId, thread), newId, oldId, thread) == threads <==> newId !in threads
  {
    var back := Rebound(Rebound(threads, oldId, newId, thread), newId, oldId, thread);
    assert newId !in back;
    if newId !in threads {
      assert back.Keys == threads.Keys;
    }
  }

  // _replace_thread_binding
  method ReplaceThreadBinding(ws: WorkspaceInfo, thread: ThreadInfo, newId: ThreadId)
    modifies ws, thread
    ensures thread.archived == old(thread.archived)
    ensures newId == "" || newId == old(thread.binding.threadId) ==>
      ws.threads == old(ws.threads) && thread.binding == old(thread.binding)
    ensures newId != "" && newId != old(thread.binding.threadId) ==>
      && ws.threads == (if old(thread.binding.threadId) == "" then old(ws.threads)[newId := thread]
                        else Rebound(old(ws.threads), old(thread.binding.threadId), newId, thread))
      && thread.binding == old(thread.binding).(threadId := newId, source := "app", isActive := true)
  {
    if newId == "" || newId == thread.binding.threadId {
      return;
    }
    if thread.binding.threadId != "" {
      ws.threads := ws.threads - {thread.binding.threadId};
    }
    thread.binding := thread.binding.(threadId := newId, source := "app", isActive := true);
    ws.threads := ws.threads[newId := thread];
  }

  // rollback_thread_remap
  method RollbackThreadRemap(ws: WorkspaceInfo, thread: ThreadInfo, original: Binding) returns (done: bool)
    modifies ws, thread
    ensures done == old(thread.binding.threadId != original.threadId && !thread.archived
                        && thread.binding.threadId in ws.threads && ws.threads[thread.binding.threadId] == thread)
    ensures thread.archived == old(thread.archived)
    ensures done ==>
      && thread.binding == original
      && ws.threads == Rebound(old(ws.threads), old(thread.binding.threadId), original.threadId, thread)
    ensures !done ==> ws.threads == old(ws.threads) && thread.binding == old(thread.binding)
  {
    var id := thread.binding.threadId;
    if id == original.threadId {
      return false;
    }
    if thread.archived || id !in ws.threads || ws.threads[id] != thread {
      return false;
    }
    ws.threads := ws.threads - {id};
    thread.binding := original;
    ws.threads := ws.threads[original.threadId := thread];
    return true;
  }

  // A prepared send that rebinds the thread, edits the remembered fields and then fails.
  // While the send was under way the map may have become any other, and the thread may
  // have been archived.  The binding goes back exactly when the thread is unarchived and
  // still filed under its new id, and then the rest of the map stays as it has become; if
  // nobody touched the map and the new id was free, everything is as before.
  method FailedSend(ws: WorkspaceInfo, thread: ThreadInfo, newId: ThreadId, edits: Binding,
                    archivedMeanwhile: bool, meanwhile: map<ThreadId, ThreadInfo>)
    returns (done: bool)
    requires thread.binding.threadId in ws.threads && ws.threads[thread.binding.threadId] == thread
    requires thread.binding.threadId != "" && newId != "" && newId != thread.binding.threadId
    modifies ws, thread
    ensures done <==> !archivedMeanwhile && newId in meanwhile && meanwhile[newId] == thread
    ensures done ==>
      && thread.binding == old(thread.binding)
      && ws.threads == Rebound(meanwhile, newId, old(thread.binding.threadId), thread)
    ensures !done ==> ws.threads == meanwhile && thread.binding == edits.(threadId := newId)
    ensures !archivedMeanwhile && newId !in old(ws.threads)
            && meanwhile == Rebound(old(ws.threads), old(thread.binding.threadId), newId, thread) ==>
              ws.threads == old(ws.threads) && thread.binding == old(thread.binding)
  {
    var original := thread.binding;
    ReplaceThreadBinding(ws, thread, newId);
    thread.binding := edits.(threadId := newId);
    thread.archived := archivedMeanwhile;
    ws.threads := meanwhile;
    RebindAndBack(old(ws.threads), original.threadId, newId, thread);
    done := RollbackThreadRemap(ws, thread, original);
  }
}
