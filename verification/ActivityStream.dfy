/**
 The activity stream: a snapshot, then one payload per event, through a bounded queue
 that disconnects a slow client rather than leave an event out.
*/
module ActivityStream {
  import opened Prelude

  type SessionKey = string
  type Activity = string
  type View = map<SessionKey, Activity>

  const STREAM_QUEUE_SIZE := 256

  // A bus event, with the activity the projection holds after it and the archive flag
  // that storage holds for its session when the subscribers are called.
  datatype BusEvent = BusEvent(session: Option<SessionKey>, removes: bool, activity: Activity, archived: bool)

  datatype Bus = Bus(activities: map<SessionKey, Activity>, archived: set<SessionKey>)

  datatype Payload = Changed(session: SessionKey, activity: Activity) | Removed(session: SessionKey)

  // The projection and the archive flag after an event.
  function Apply(b: Bus, e: BusEvent): Bus {
    match e.session
    case None => b
    case Some(k) =>
      Bus(if e.removes then b.activities - {k} else b.activities[k := e.activity],
          if e.archived then b.archived + {k} else b.archived - {k})
  }

  function ApplyAll(b: Bus, es: seq<BusEvent>): Bus
    decreases |es|
  {
    if es == [] then b else ApplyAll(Apply(b, es[0]), es[1..])
  }

  // What a snapshot shows, without a result limit.
  function Visible(b: Bus): View {
    map k | k in b.activities && k !in b.archived :: b.activities[k]
  }

  // on_event, called when the bus has already taken the event in.
  function PayloadOf(b: Bus, e: BusEvent): Option<Payload> {
    match e.session
    case None => None
    case Some(k) =>
      if e.removes then Some(Removed(k))
      else if k !in b.activities then None
      else if k in b.archived then Some(Removed(k))
      else Some(Changed(k, b.activities[k]))
  }

  function Payloads(b: Bus, es: seq<BusEvent>): seq<Payload>
    decreases |es|
  {
    if es == [] then []
    else
      var b' := Apply(b, es[0]);
      (match PayloadOf(b', es[0]) case None => [] case Some(p) => [p]) + Payloads(b', es[1..])
  }

  // What the client makes of a payload.
  function Shown(v: View, p: Payload): View {
    match p
    case Changed(k, a) => v[k := a]
    case Removed(k) => v - {k}
  }

  function ShownAll(v: View, ps: seq<Payload>): View
    decreases |ps|
  {
    if ps == [] then v else ShownAll(Shown(v, ps[0]), ps[1..])
  }

  lemma OneEvent(b: Bus, e: BusEvent)
    ensures var b' := Apply(b, e);
      Visible(b') == match PayloadOf(b', e) case None => Visible(b) case Some(p) => Shown(Visible(b), p)
  {
  }

  lemma {:induction false} PayloadsSnoc(b: Bus, es: seq<BusEvent>, e: BusEvent)
    ensures ApplyAll(b, es + [e]) == Apply(ApplyAll(b, es), e)
    ensures var b' := Apply(ApplyAll(b, es), e);
      Payloads(b, es + [e]) == Payloads(b, es) + (match PayloadOf(b', e) case None => [] case Some(p) => [p])
    decreases |es|
  {
    if es == [] {
      assert es + [e] == [e];
      assert ApplyAll(Apply(b, e), []) == Apply(b, e);
    } else {
      PayloadsSnoc(Apply(b, es[0]), es[1..], e);
      assert (es + [e])[1..] == es[1..] + [e];
    }
  }

  // A client that has read the snapshot and any number of payloads shows what the bus
  // showed after some of the events.
  lemma {:induction false} PrefixIsABusView(b: Bus, es: seq<BusEvent>, n: nat) returns (k: nat)
    requires n <= |Payloads(b, es)|
    ensures k <= |es|
    ensures ShownAll(Visible(b), Payloads(b, es)[..n]) == Visible(ApplyAll(b, es[..k]))
    ensures n == |Payloads(b, es)| ==> k == |es|
    decreases |es|
  {
    var ps := Payloads(b, es);
    if es == [] {
      k := 0;
    } else {
      var b' := Apply(b, es[0]);
      OneEvent(b, es[0]);
      match PayloadOf(b', es[0]) {
        case None =>
          k := PrefixIsABusView(b', es[1..], n);
          k := k + 1;
          assert ps == Payloads(b', es[1..]);
        case Some(p) =>
          if n == 0 {
            assert ps[..0] == [] && es[..0] == [];
            return 0;
          }
          k := PrefixIsABusView(b', es[1..], n - 1);
          k := k + 1;
          assert ps[0] == p && ps[1..] == Payloads(b', es[1..]);
          assert ps[..n][0] == p && ps[..n][1..] == Payloads(b', es[1..])[..n - 1];
      }
      assert es[..k][1..] == es[1..][..k - 1];
    }
  }

  class Stream {
    ghost const start: Bus              // the bus when the client subscribed
    ghost var published: seq<BusEvent>  // every event since
    var queue: seq<Payload>
    var closed: bool
    var written: seq<Payload>           // what the client was sent after the snapshot

    constructor (ghost start: Bus)
      ensures Valid() && this.start == start && published == [] && written == [] && !closed
    {
      this.start := start;
      published, queue, closed, written := [], [], false, [];
    }

    // The client has been sent, and is about to be sent, a gap-free prefix; it is all
    // there unless the stream was disconnected.
    ghost predicate Valid()
      reads this
    {
      var all := Payloads(start, published);
      && |queue| <= STREAM_QUEUE_SIZE
      && written + queue <= all
      && (!closed ==> written + queue == all)
    }

    method Enqueue(p: Payload)
      modifies this`queue, this`closed
      ensures old(closed) ==> closed && queue == old(queue)
      ensures !old(closed) && |old(queue)| < STREAM_QUEUE_SIZE ==> !closed && queue == old(queue) + [p]
      ensures !old(closed) && |old(queue)| >= STREAM_QUEUE_SIZE ==> closed && queue == old(queue)
    {
      if closed {
        return;
      }
      if |queue| < STREAM_QUEUE_SIZE {
        queue := queue + [p];
      } else {
        closed := true;
      }
    }

    // With one more payload queued, or none any more, the client's part stays a gap-free prefix.
    method EnqueueNext(p: Payload, ghost all: seq<Payload>)
      requires |queue| <= STREAM_QUEUE_SIZE && written + queue <= all && (!closed ==> written + queue == all)
      modifies this`queue, this`closed
      ensures |queue| <= STREAM_QUEUE_SIZE && written + queue <= all + [p]
      ensures (!closed ==> written + queue == all + [p]) && (old(closed) ==> closed)
      ensures !old(closed) && |old(queue)| < STREAM_QUEUE_SIZE ==> !closed
    {
      ghost var sent := written + queue;
      Enqueue(p);
      assert written + queue == sent || written + queue == sent + [p];
    }

    method OnEvent(bus: Bus, e: BusEvent)
      requires Valid() && bus == Apply(ApplyAll(start, published), e)
      modifies this
      ensures Valid() && published == old(published) + [e] && written == old(written)
      ensures old(closed) ==> closed
      ensures !old(closed) && |old(queue)| < STREAM_QUEUE_SIZE ==> !closed
    {
      ghost var all := Payloads(start, published);
      PayloadsSnoc(start, published, e);
      published := published + [e];
      match e.session {
        case None =>
        case Some(k) =>
          if e.removes {
            EnqueueNext(Removed(k), all);
          } else if k in bus.activities {
            if k in bus.archived {
              EnqueueNext(Removed(k), all);
            } else {
              EnqueueNext(Changed(k, bus.activities[k]), all);
            }
          }
      }
    }

    // One round of write_loop.
    method WriteNext()
      requires Valid() && queue != []
      modifies this
      ensures Valid() && published == old(published) && closed == old(closed)
      ensures written == old(written) + [old(queue)[0]]
    {
      written, queue := written + [queue[0]], queue[1..];
      assert written + queue == old(written + queue);
    }

    // At any moment the client shows a state the bus was in.
    lemma ClientShowsABusView() returns (k: nat)
      requires Valid()
      ensures k <= |published|
      ensures ShownAll(Visible(start), written) == Visible(ApplyAll(start, published[..k]))
      ensures !closed && queue == [] ==> k == |published|
    {
      var all := Payloads(start, published);
      assert written == all[..|written|];
      k := PrefixIsABusView(start, published, |written|);
    }
  }
}
