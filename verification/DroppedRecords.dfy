/**
 What reconciliation does to the first-message protocol: a pass that drops a thread drops
 the record it carries, whoever is at work on it.
*/
module DroppedRecords {
  import opened Prelude
  import opened FirstMessage
  import opened FirstMessageProofs
  import FirstMessageLimits
  import Storage
  import Reconcile

  // The stored threads are the entries of the store: `ids` names them and `read` reads
  // their new_session_recovery.
  ghost predicate Mirrors(mem: Store, threads: Reconcile.Threads, ids: string -> ThreadId,
                          read: Storage.Items -> Option<Record>)
  {
    && (forall k, l :: k in threads && l in threads && ids(k) == ids(l) ==> k == l)
    && (forall k <- threads ::
          ids(k) in mem.threads
          && mem.threads[ids(k)] == Thread(threads[k].archived, read(threads[k].newSessionRecovery)))
    && (forall t <- mem.threads :: exists k <- threads :: ids(k) == t)
  }

  // The entries and records that a pass leaves.
  lemma PassThins(mem: Store, mem': Store, threads: Reconcile.Threads, f: Reconcile.Facts, ids: string -> ThreadId,
                  read: Storage.Items -> Option<Record>)
    requires mem'.creation == mem.creation
    requires Mirrors(mem, threads, ids, read) && Mirrors(mem', Reconcile.Reconciled(threads, f), ids, read)
    ensures Thinned(mem, mem')
    ensures forall k <- threads :: ids(k) in mem'.threads <==> !Reconcile.Drops(k, threads[k], f)
  {
    var kept := Reconcile.Reconciled(threads, f);
    forall k <- threads
      ensures ids(k) in mem'.threads <==> !Reconcile.Drops(k, threads[k], f)
      ensures ids(k) in mem'.threads ==> mem'.threads[ids(k)].record == mem.threads[ids(k)].record
    {
      Reconcile.DroppedExactly(threads, f, k);
      if ids(k) in mem'.threads {
        var l :| l in kept && ids(l) == ids(k);
        assert l == k;
      }
    }
    forall t <- mem'.threads
      ensures t in mem.threads && mem'.threads[t].record == mem.threads[t].record
    {
      var k :| k in kept && ids(k) == t;
      assert k in threads;
    }
  }

  // The record of a dropped thread may not go: as far as the store alone goes, or with the
  // tasks at work in view.
  predicate SpoilsStore(s: State, mem': Store, t: ThreadId)
    requires t in s.mem.threads
  {
    && s.mem.threads[t].record.Some?
    && !LossIsSound(s, mem', t, s.mem.threads[t].record.value.request)
  }

  predicate LosesRecord(s: State, mem': Store, t: ThreadId)
    requires t in s.mem.threads
  {
    && s.mem.threads[t].record.Some?
    && !LossIsHarmless(s, mem', t, s.mem.threads[t].record.value.request)
  }

  // A pass leaves a store that is not sound if and only if it drops a thread that spoils it.
  lemma ReconcileIsSoundExactly(s: State, mem': Store, threads: Reconcile.Threads, f: Reconcile.Facts,
                                ids: string -> ThreadId, read: Storage.Items -> Option<Record>,
                                inputs: RequestId -> Input)
    requires Inv(s, inputs) && mem'.creation == s.mem.creation
    requires Mirrors(s.mem, threads, ids, read) && Mirrors(mem', Reconcile.Reconciled(threads, f), ids, read)
    ensures !Sound(mem', s.sends, s.starts, inputs) <==>
      exists k <- threads :: Reconcile.Drops(k, threads[k], f) && SpoilsStore(s, mem', ids(k))
  {
    PassThins(s.mem, mem', threads, f, ids, read);
    PassIsSoundExactly(s, mem', inputs);
    if !LossesAreSound(s, mem') {
      var t :| t in s.mem.threads && t !in mem'.threads && SpoilsStore(s, mem', t);
      var k :| k in threads && ids(k) == t;
      assert Reconcile.Drops(k, threads[k], f);
    }
  }

  // Whatever tasks are at work, a pass breaks the promise, in some continuation that is
  // otherwise as assumed, if and only if it drops a thread whose record may not go.
  lemma ReconcileBreaksExactly(s: State, mem': Store, threads: Reconcile.Threads, f: Reconcile.Facts,
                               ids: string -> ThreadId, read: Storage.Items -> Option<Record>,
                               inputs: RequestId -> Input)
    requires Inv(s, inputs) && mem'.creation == s.mem.creation
    requires Mirrors(s.mem, threads, ids, read) && Mirrors(mem', Reconcile.Reconciled(threads, f), ids, read)
    ensures FirstMessageLimits.CanBreak(s.(mem := mem'), inputs) <==>
      exists k <- threads :: Reconcile.Drops(k, threads[k], f) && LosesRecord(s, mem', ids(k))
  {
    PassThins(s.mem, mem', threads, f, ids, read);
    FirstMessageLimits.PassBreaksExactly(s, mem', inputs);
    if !PassIsHarmless(s, mem') {
      var t :| t in s.mem.threads && t !in mem'.threads && LosesRecord(s, mem', t);
      var k :| k in threads && ids(k) == t;
      assert Reconcile.Drops(k, threads[k], f);
    }
  }

  // The sessions of the app path carry the source "provider", which does not protect them.
  lemma ProviderSessionDroppedExactly(threads: Reconcile.Threads, f: Reconcile.Facts, key: string)
    requires key in threads && threads[key].source == "provider"
    ensures key !in Reconcile.Reconciled(threads, f) <==>
      (&& f.preserve && !Reconcile.HasTopic(threads[key], f) && key !in f.active
       && (Reconcile.Unlisted(key, f) || !threads[key].archived))
  {
    Reconcile.DroppedExactly(threads, f, key);
  }
}
