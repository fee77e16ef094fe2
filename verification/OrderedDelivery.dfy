/**
 The bounded, ordered delivery queue that joins adjacent text deltas.

 A queued delta is extended in place through the alias `lastDelta`, so what is delivered
 depends on that alias naming the last queued context and nothing else.
*/
module OrderedDelivery {
  import opened Prelude

  type Key = string

  // What a queue entry means: a delta of some stream, or an event that is never joined.
  datatype Item = Item(key: Option<Key>, id: nat, text: string)

  // ---- the meaning of a sequence of entries ----

  predicate Joins(a: Item, b: Item) {
    a.key.Some? && a.key == b.key
  }

  function Append(s: seq<Item>, x: Item): seq<Item> {
    if s != [] && Joins(s[|s| - 1], x) then s[..|s| - 1] + [s[|s| - 1].(text := s[|s| - 1].text + x.text)]
    else s + [x]
  }

  function NormFrom(done: seq<Item>, s: seq<Item>): seq<Item>
    decreases |s|
  {
    if s == [] then done else NormFrom(Append(done, s[0]), s[1..])
  }

  // Adjacent deltas of one stream are one delta; everything else stays apart.
  function Norm(s: seq<Item>): seq<Item> {
    NormFrom([], s)
  }

  lemma {:induction false} NormConcat(done: seq<Item>, a: seq<Item>, b: seq<Item>)
    ensures NormFrom(done, a + b) == NormFrom(NormFrom(done, a), b)
    decreases |a|
  {
    if a == [] {
      assert a + b == b;
    } else {
      NormConcat(Append(done, a[0]), a[1..], b);
      assert (a + b)[1..] == a[1..] + b;
    }
  }

  lemma NormSnoc(s: seq<Item>, x: Item)
    ensures Norm(s + [x]) == Append(Norm(s), x)
  {
    NormConcat([], s, [x]);
  }

  // Extending the last delta by the text of the next one, or queueing the next one: the
  // meaning is the same, whatever came before.
  lemma ExtendIsAppend(s: seq<Item>, x: Item, y: Item)
    requires Joins(x, y)
    ensures Norm(s + [x.(text := x.text + y.text)]) == Norm((s + [x]) + [y])
  {
    NormSnoc(s, x.(text := x.text + y.text));
    NormSnoc(s, x);
    NormSnoc(s + [x], y);
    var n := Norm(s);
    if n != [] && Joins(n[|n| - 1], x) {
      var l := n[|n| - 1];
      assert (l.text + x.text) + y.text == l.text + (x.text + y.text);
    }
  }

  function KeyText(s: seq<Item>, key: Option<Key>): string {
    if s == [] then "" else (if s[0].key == key then s[0].text else "") + KeyText(s[1..], key)
  }

  lemma {:induction false} KeyTextSnoc(s: seq<Item>, x: Item, key: Option<Key>)
    ensures KeyText(s + [x], key) == KeyText(s, key) + (if x.key == key then x.text else "")
    decreases |s|
  {
    if s == [] {
      assert s + [x] == [x];
    } else {
      KeyTextSnoc(s[1..], x, key);
      assert (s + [x])[1..] == s[1..] + [x];
    }
  }

  // Joining loses no text and reorders none: what a reader of one stream sees is the
  // same before and after.
  lemma {:induction false} NormKeepsText(done: seq<Item>, s: seq<Item>, key: Option<Key>)
    ensures KeyText(NormFrom(done, s), key) == KeyText(done, key) + KeyText(s, key)
    decreases |s|
  {
    if s != [] {
      NormKeepsText(Append(done, s[0]), s[1..], key);
      AppendText(done, s[0], key);
    }
  }

  lemma AppendText(s: seq<Item>, x: Item, key: Option<Key>)
    ensures KeyText(Append(s, x), key) == KeyText(s, key) + (if x.key == key then x.text else "")
  {
    if s != [] && Joins(s[|s| - 1], x) {
      var m, l := s[..|s| - 1], s[|s| - 1];
      assert m + [l] == s;
      KeyTextSnoc(m, l, key);
      KeyTextSnoc(m, l.(text := l.text + x.text), key);
    } else {
      KeyTextSnoc(s, x, key);
    }
  }

  // When queue and history mean the same, what a stream has delivered so far is the
  // beginning of what was accepted for it, and the queue holds the rest.
  lemma DeliveredTextIsPrefix(delivered: seq<Item>, queued: seq<Item>, accepted: seq<Item>, key: Option<Key>)
    requires Norm(delivered + queued) == Norm(accepted)
    ensures KeyText(delivered, key) + KeyText(queued, key) == KeyText(accepted, key)
  {
    NormKeepsText([], delivered + queued, key);
    NormKeepsText([], accepted, key);
    KeyTextConcat(delivered, queued, key);
    var none := KeyText([], key);
    assert none + KeyText(delivered + queued, key) == KeyText(delivered + queued, key);
    assert none + KeyText(accepted, key) == KeyText(accepted, key);
  }

  lemma {:induction false} KeyTextConcat(a: seq<Item>, b: seq<Item>, key: Option<Key>)
    ensures KeyText(a + b, key) == KeyText(a, key) + KeyText(b, key)
    decreases |a|
  {
    if a == [] {
      assert a + b == b;
    } else {
      var p := if a[0].key == key then a[0].text else "";
      var rest, tail := KeyText(a[1..], key), KeyText(b, key);
      KeyTextConcat(a[1..], b, key);
      assert (a + b)[0] == a[0] && (a + b)[1..] == a[1..] + b;
      assert KeyText(a + b, key) == p + (rest + tail);
      assert p + (rest + tail) == (p + rest) + tail;
    }
  }

  // ---- the consumer ----

  // An event context; `text` is the delta of its message payload.
  class Context {
    const id: nat
    var text: string

    constructor (id: nat, text: string)
      ensures this.id == id && this.text == text
    {
      this.id, this.text := id, text;
    }
  }

  datatype Entry = Entry(context: Context, key: Option<Key>)

  ghost function ItemOf(e: Entry): Item
    reads e.context
  {
    Item(e.key, e.context.id, e.context.text)
  }

  datatype Worker =
    | NoTask
    | Created                   // create_task was called, the coroutine has not run yet
    | InCallback(entry: Entry)  // awaiting the callback of an entry
    | Done

  class Consumer {
    const capacity: nat
    var queue: seq<Entry>
    var lastDelta: Option<Entry>
    var worker: Worker
    var closed: bool
    var unfinished: nat                // the queue's count for join()
    ghost var pending: seq<Item>       // the queue's entries as they stand now
    ghost var accepted: seq<Item>      // entries for which enqueue returned True
    ghost var delivered: seq<Item>     // entries as they were when their callback started
    ghost var interrupted: bool        // the worker was cancelled, or the consumer closed

    constructor (capacity: nat)
      ensures Valid() && !closed && queue == [] && accepted == [] && delivered == []
      ensures this.capacity == capacity && worker == NoTask && !interrupted
    {
      this.capacity := capacity;
      queue, lastDelta, worker, closed, unfinished := [], None, NoTask, false, 0;
      pending, accepted, delivered, interrupted := [], [], [], false;
    }

    ghost function Contexts(): set<Context>
      reads this
    {
      (set e <- queue :: e.context) + (if worker.InCallback? then {worker.entry.context} else {})
    }

    ghost predicate Alive()
      reads this
    {
      worker.Created? || worker.InCallback?
    }

    // The alias is the last queued entry; no context is queued twice, and none that is
    // queued is already being delivered.
    ghost predicate AliasOk()
      reads this
    {
      && (forall i, j :: 0 <= i < j < |queue| ==> queue[i].context != queue[j].context)
      && (worker.InCallback? ==> forall i :: 0 <= i < |queue| ==> queue[i].context != worker.entry.context)
      && (lastDelta.Some? ==> queue != [] && lastDelta.value == queue[|queue| - 1] && lastDelta.value.key.Some?)
    }

    ghost predicate PendingOk()
      reads this, Contexts()
    {
      |pending| == |queue| && forall i :: 0 <= i < |queue| ==> pending[i] == ItemOf(queue[i])
    }

    ghost predicate Valid()
      reads this, Contexts()
    {
      && AliasOk()
      && |queue| <= capacity
      && PendingOk()
      // nothing is lost, repeated or reordered
      && (!closed ==> Norm(delivered + pending) == Norm(accepted))
      // a context does not change any more once its callback has started
      && (worker.InCallback? ==> delivered != [] && delivered[|delivered| - 1] == ItemOf(worker.entry))
      // exact accounting
      && unfinished == |queue| + (if worker.InCallback? then 1 else 0)
      // no lost wakeup
      && (!interrupted && queue != [] ==> Alive())
      && (closed ==> interrupted)
    }

    // Writing through the alias changes the last queued entry and no other.
    method JoinThroughAlias(text: string)
      requires AliasOk() && PendingOk() && lastDelta.Some?
      modifies this`pending, lastDelta.value.context
      ensures AliasOk() && PendingOk() && pending == Extended(old(pending), text)
      ensures forall i :: 0 <= i < |queue| - 1 ==> ItemOf(queue[i]) == old(ItemOf(queue[i]))
      ensures ItemOf(queue[|queue| - 1]) ==
        old(ItemOf(queue[|queue| - 1])).(text := old(ItemOf(queue[|queue| - 1]).text) + text)
      ensures worker.InCallback? ==> ItemOf(worker.entry) == old(ItemOf(worker.entry))
    {
      var previous := lastDelta.value.context;
      previous.text := previous.text + text;
      pending := Extended(pending, text);
    }

    // The delta is joined to the last queued one, through the alias.
    method ExtendTail(context: Context, key: Option<Key>)
      requires Valid() && !closed && key.Some? && lastDelta.Some? && lastDelta.value.key == key
      requires context !in Contexts()
      modifies this, lastDelta.value.context
      ensures Valid() && closed == old(closed) && delivered == old(delivered) && interrupted == old(interrupted)
      ensures accepted == old(accepted) + [Item(key, context.id, old(context.text))]
      ensures queue == old(queue) && worker == old(worker)
    {
      ghost var item := Item(key, context.id, context.text);
      ExtendKeepsMeaning(delivered, pending, item, accepted);
      JoinThroughAlias(context.text);
      accepted := accepted + [item];
    }

    // put_nowait, with the alias set to the new entry if it is a delta.
    method Append(context: Context, key: Option<Key>)
      requires AliasOk() && PendingOk() && context !in Contexts()
      modifies this`queue, this`pending, this`lastDelta, this`unfinished
      ensures AliasOk() && PendingOk() && unfinished == old(unfinished) + 1
      ensures queue == old(queue) + [Entry(context, key)]
      ensures pending == old(pending) + [Item(key, context.id, context.text)]
    {
      queue, pending := queue + [Entry(context, key)], pending + [Item(key, context.id, context.text)];
      unfinished := unfinished + 1;
      lastDelta := if key.Some? then Some(Entry(context, key)) else None;
    }

    method Put(context: Context, key: Option<Key>)
      requires Valid() && !closed && |queue| < capacity
      requires context !in Contexts()
      modifies this
      ensures Valid() && closed == old(closed) && delivered == old(delivered) && interrupted == old(interrupted)
      ensures accepted == old(accepted) + [Item(key, context.id, context.text)]
      ensures queue == old(queue) + [Entry(context, key)] && Alive()
    {
      ghost var item := Item(key, context.id, context.text);
      QueueKeepsMeaning(delivered, pending, item, accepted);
      Append(context, key);
      if worker.NoTask? || worker.Done? {
        worker := Created;
      }
      accepted := accepted + [item];
    }

    // `notified` is the notification.failed event that a full queue publishes.  It carries
    // no delivery context, so it does not come back here.
    method Enqueue(context: Context, key: Option<Key>) returns (ok: bool, notified: bool)
      requires Valid() && context !in Contexts()
      modifies this, if lastDelta.Some? then {lastDelta.value.context} else {}
      ensures Valid() && closed == old(closed) && delivered == old(delivered) && interrupted == old(interrupted)
      ensures ok ==> accepted == old(accepted) + [Item(key, context.id, old(context.text))]
      ensures !ok ==> accepted == old(accepted) && queue == old(queue) && worker == old(worker)
      ensures !ok <==> old(closed) || notified
      ensures notified <==>
        && !old(closed) && |old(queue)| == capacity
        && !(key.Some? && old(lastDelta).Some? && old(lastDelta).value.key == key)
      ensures notified ==> lastDelta == None
      ensures ok ==>
        queue == if key.Some? && old(lastDelta).Some? && old(lastDelta).value.key == key then old(queue)
                 else old(queue) + [Entry(context, key)]
    {
      if closed {
        return false, false;
      }
      if key.Some? && lastDelta.Some? && lastDelta.value.key == key {
        ExtendTail(context, key);
        return true, false;
      }
      if |queue| == capacity {
        lastDelta := None;
        return false, true;
      }
      Put(context, key);
      return true, false;
    }

    // One round of the worker's loop, up to the await of the callback.
    method NextCallback()
      requires Valid() && worker.Created?
      modifies this
      ensures Valid() && closed == old(closed) && accepted == old(accepted) && interrupted == old(interrupted)
      ensures old(queue) == [] ==> worker == Done && queue == [] && delivered == old(delivered)
      ensures old(queue) != [] ==>
        && worker == InCallback(old(queue)[0]) && queue == old(queue)[1..]
        && delivered == old(delivered) + [ItemOf(old(queue)[0])]
    {
      if queue == [] {
        worker := Done;
        return;
      }
      var entry := queue[0];
      queue := queue[1..];
      if entry.key.Some? && lastDelta.Some? && lastDelta.value.context == entry.context {
        lastDelta := None;
      }
      worker := InCallback(entry);
      assert (delivered + [pending[0]]) + pending[1..] == delivered + pending;
      delivered, pending := delivered + [pending[0]], pending[1..];
    }

    // The callback has returned or raised an ordinary exception: task_done, and on.
    method CallbackEnds()
      requires Valid() && worker.InCallback?
      modifies this
      ensures Valid() && closed == old(closed) && accepted == old(accepted) && interrupted == old(interrupted)
      ensures old(queue) == [] ==> worker == Done && delivered == old(delivered)
      ensures old(queue) != [] ==>
        worker == InCallback(old(queue)[0]) && delivered == old(delivered) + [ItemOf(old(queue)[0])]
    {
      unfinished := unfinished - 1;
      worker := Created;
      NextCallback();
    }

    // The worker is cancelled, in its callback or before it ran at all.
    method WorkerCancelled()
      requires Valid() && Alive()
      modifies this
      ensures Valid() && worker == Done && queue == old(queue) && delivered == old(delivered)
      ensures closed == old(closed) && accepted == old(accepted)
    {
      if worker.InCallback? {
        unfinished := unfinished - 1;
      }
      worker := Done;
      interrupted := true;
    }

    // close() up to its await, and after the worker has ended.
    method BeginClose()
      requires Valid()
      modifies this
      ensures Valid() && closed && queue == old(queue) && worker == old(worker)
      ensures delivered == old(delivered) && accepted == old(accepted)
    {
      closed := true;
      interrupted := true;
    }

    method FinishClose()
      requires Valid() && closed && !Alive()
      modifies this
      ensures Valid() && closed && !Alive() && delivered == old(delivered)
      ensures queue == [] && unfinished == 0 && lastDelta == None
    {
      while queue != []
        invariant unfinished == |queue| == |pending|
        invariant closed && interrupted && !Alive() && delivered == old(delivered)
        decreases |queue|
      {
        queue, pending := queue[1..], pending[1..];
        unfinished := unfinished - 1;
      }
      lastDelta := None;
    }
  }

  lemma QueueKeepsMeaning(delivered: seq<Item>, queued: seq<Item>, item: Item, accepted: seq<Item>)
    ensures Norm(delivered + queued) == Norm(accepted) ==>
      Norm(delivered + (queued + [item])) == Norm(accepted + [item])
  {
    NormSnoc(delivered + queued, item);
    NormSnoc(accepted, item);
    assert delivered + (queued + [item]) == (delivered + queued) + [item];
  }

  // The last delta with some more text.
  function Extended(queued: seq<Item>, text: string): (extended: seq<Item>)
    requires queued != []
    ensures |extended| == |queued| && forall i :: 0 <= i < |queued| - 1 ==> extended[i] == queued[i]
    ensures extended[|queued| - 1] == queued[|queued| - 1].(text := queued[|queued| - 1].text + text)
  {
    var last := queued[|queued| - 1];
    queued[..|queued| - 1] + [last.(text := last.text + text)]
  }

  lemma ExtendKeepsMeaning(delivered: seq<Item>, queued: seq<Item>, item: Item, accepted: seq<Item>)
    requires queued != [] && Joins(queued[|queued| - 1], item)
    ensures Norm(delivered + queued) == Norm(accepted) ==>
      Norm(delivered + Extended(queued, item.text)) == Norm(accepted + [item])
  {
    var front, last := queued[..|queued| - 1], queued[|queued| - 1];
    var longer := last.(text := last.text + item.text);
    ExtendIsAppend(delivered + front, last, item);
    NormSnoc(delivered + queued, item);
    NormSnoc(accepted, item);
    assert delivered + (front + [longer]) == (delivered + front) + [longer];
    assert delivered + queued == (delivered + front) + [last];
  }
}
