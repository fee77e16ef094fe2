/**
 The message bus: a bounded window of events, a set of dedupe keys that must agree with
 it, and subscribers that may publish again while an event is being published.
*/
module EventBus {
  type SessionKey = (string, string)

  datatype Kind = Hidden | Archived | HistoryLoaded | OtherKind

  datatype Event = Event(id: nat, kind: Kind, session: SessionKey, dedupeKey: string)

  datatype Verdict = Proceed | Veto | Raise

  // One publish together with everything the subscribers do during it: delivery
  // subscribers before the event is stored, ordinary subscribers after.  `conflict` is
  // the result of comparing workspace paths.
  datatype Call = Call(event: Event, conflict: bool, reactions: seq<Reaction>, followUps: seq<Call>)
  datatype Reaction = Reaction(nested: seq<Call>, verdict: Verdict)

  datatype Bus = Bus(
    maxEvents: nat,
    events: seq<Event>,
    seen: set<string>,
    hidden: set<SessionKey>,
    hydrated: set<SessionKey>,
    log: seq<Event>)            // every event ever stored

  function NewBus(maxEvents: nat): Bus {
    Bus(if maxEvents < 1 then 1 else maxEvents, [], {}, {}, {}, [])
  }

  function Hide(b: Bus, e: Event): Bus {
    if e.kind == Hidden then b.(hidden := b.hidden + {e.session}) else b
  }

  predicate Refuses(b: Bus, c: Call) {
    || c.conflict
    || (c.event.kind != Hidden && c.event.session in b.hidden)
    || (c.event.dedupeKey != "" && c.event.dedupeKey in b.seen)
  }

  function Store(b: Bus, e: Event): Bus {
    var seen := if e.dedupeKey != "" then b.seen + {e.dedupeKey} else b.seen;
    var full := |b.events| == b.maxEvents;
    b.(seen := if full && b.events != [] && b.events[0].dedupeKey != "" then seen - {b.events[0].dedupeKey} else seen,
       events := (if full && b.events != [] then b.events[1..] else b.events) + [e],
       hydrated := match e.kind
                   case HistoryLoaded => b.hydrated + {e.session}
                   case Archived | Hidden => b.hydrated - {e.session}
                   case OtherKind => b.hydrated,
       log := b.log + [e])
  }

  function Published(b: Bus, c: Call): (Bus, bool)
    decreases c
  {
    if c.conflict then (b, false)
    else
      var b1 := Hide(b, c.event);
      if Refuses(b1, c) then (b1, false)
      else
        var (b2, ok) := React(b1, c.reactions);
        if !ok then (b2, false) else (PublishAll(Store(b2, c.event), c.followUps), true)
  }

  // The delivery subscribers in order; the first veto ends the publish.
  function React(b: Bus, rs: seq<Reaction>): (Bus, bool)
    decreases rs
  {
    if rs == [] then (b, true)
    else
      var b1 := PublishAll(b, rs[0].nested);
      if rs[0].verdict == Veto then (b1, false) else React(b1, rs[1..])
  }

  function PublishAll(b: Bus, cs: seq<Call>): Bus
    decreases cs
  {
    if cs == [] then b else PublishAll(Published(b, cs[0]).0, cs[1..])
  }

  // ---- the window and its keys ----

  function Window(b: Bus): seq<Event> {
    if |b.log| <= b.maxEvents then b.log else b.log[|b.log| - b.maxEvents..]
  }

  function Keys(s: seq<Event>): set<string> {
    set e <- s | e.dedupeKey != "" :: e.dedupeKey
  }

  predicate KeysOnce(s: seq<Event>) {
    forall i, j :: 0 <= i < j < |s| && s[i].dedupeKey != "" ==> s[i].dedupeKey != s[j].dedupeKey
  }

  predicate Inv(b: Bus) {
    && b.maxEvents >= 1
    && b.events == Window(b)
    && b.seen == Keys(b.events)
    && KeysOnce(b.events)
  }

  lemma KeysAfterAppend(s: seq<Event>, e: Event)
    ensures Keys(s + [e]) == Keys(s) + (if e.dedupeKey == "" then {} else {e.dedupeKey})
  {
    assert forall x :: x in s + [e] <==> x in s || x == e;
  }

  lemma KeysAfterEviction(s: seq<Event>)
    requires s != [] && KeysOnce(s)
    ensures Keys(s[1..]) == if s[0].dedupeKey == "" then Keys(s) else Keys(s) - {s[0].dedupeKey}
  {
    assert s == [s[0]] + s[1..];
    assert forall x :: x in s <==> x == s[0] || x in s[1..];
    forall x <- s[1..] ensures x.dedupeKey != "" ==> x.dedupeKey != s[0].dedupeKey {
      var i :| 0 <= i < |s| - 1 && s[1..][i] == x;
      assert s[i + 1] == x;
    }
  }

  lemma WindowAfterStore(b: Bus, e: Event)
    requires b.maxEvents >= 1 && b.events == Window(b)
    ensures var b' := Store(b, e);
      && b'.events == (if |b.events| == b.maxEvents then b.events[1..] else b.events) + [e]
      && b'.events == Window(b')
  {
    if |b.events| == b.maxEvents {
      assert Window(Store(b, e)) == b.log[|b.log| - b.maxEvents + 1..] + [e];
    }
  }

  lemma StoreKeeps(b: Bus, e: Event)
    requires Inv(b) && (e.dedupeKey == "" || e.dedupeKey !in b.seen)
    ensures Inv(Store(b, e))
    ensures e.dedupeKey == "" ==> Store(b, e).seen <= b.seen
  {
    var b' := Store(b, e);
    WindowAfterStore(b, e);
    var rest := if |b.events| == b.maxEvents then b.events[1..] else b.events;
    if |b.events| == b.maxEvents {
      KeysAfterEviction(b.events);
      assert KeysOnce(rest);
    }
    KeysAfterAppend(rest, e);
    OnceAfterAppend(rest, e);
  }

  lemma OnceAfterAppend(s: seq<Event>, e: Event)
    requires KeysOnce(s) && (e.dedupeKey == "" || e.dedupeKey !in Keys(s))
    ensures KeysOnce(s + [e])
  {
    forall i | 0 <= i < |s| && s[i].dedupeKey != "" ensures s[i].dedupeKey in Keys(s) {
      assert s[i] in s;
    }
  }

  // ---- every tree of publishes ----

  // A publish whose whole tree carries no dedupe key.
  predicate Keyless(c: Call)
    decreases c
  {
    && c.event.dedupeKey == ""
    && (forall r <- c.reactions :: forall n <- r.nested :: Keyless(n))
    && (forall f <- c.followUps :: Keyless(f))
  }

  // Delivery subscribers publish keyless events only; ordinary ones publish anything.
  predicate Disciplined(c: Call)
    decreases c
  {
    && (forall r <- c.reactions :: forall n <- r.nested :: Keyless(n))
    && (forall f <- c.followUps :: Disciplined(f))
  }

  lemma {:induction false} KeylessPublishKeeps(b: Bus, c: Call)
    requires Inv(b) && Keyless(c)
    ensures Inv(Published(b, c).0) && Published(b, c).0.seen <= b.seen
    decreases c
  {
    var b1 := Hide(b, c.event);
    if !c.conflict && !Refuses(b1, c) {
      KeylessReactKeeps(b1, c.reactions);
      var (b2, ok) := React(b1, c.reactions);
      if ok {
        StoreKeeps(b2, c.event);
        KeylessAllKeeps(Store(b2, c.event), c.followUps);
      }
    }
  }

  lemma {:induction false} KeylessReactKeeps(b: Bus, rs: seq<Reaction>)
    requires Inv(b) && forall r <- rs :: forall n <- r.nested :: Keyless(n)
    ensures Inv(React(b, rs).0) && React(b, rs).0.seen <= b.seen
    decreases rs
  {
    if rs != [] {
      assert rs[0] in rs;
      KeylessAllKeeps(b, rs[0].nested);
      if rs[0].verdict != Veto {
        KeylessReactKeeps(PublishAll(b, rs[0].nested), rs[1..]);
      }
    }
  }

  lemma {:induction false} KeylessAllKeeps(b: Bus, cs: seq<Call>)
    requires Inv(b) && forall c <- cs :: Keyless(c)
    ensures Inv(PublishAll(b, cs)) && PublishAll(b, cs).seen <= b.seen
    decreases cs
  {
    if cs != [] {
      assert cs[0] in cs;
      KeylessPublishKeeps(b, cs[0]);
      KeylessAllKeeps(Published(b, cs[0]).0, cs[1..]);
    }
  }

  // Whatever the subscribers do, the dedupe set is the set of keys in the window.
  lemma {:induction false} PublishKeeps(b: Bus, c: Call)
    requires Inv(b) && Disciplined(c)
    ensures Inv(Published(b, c).0)
    decreases c
  {
    var b1 := Hide(b, c.event);
    if !c.conflict && !Refuses(b1, c) {
      KeylessReactKeeps(b1, c.reactions);
      var (b2, ok) := React(b1, c.reactions);
      if ok {
        StoreKeeps(b2, c.event);
        RunKeeps(Store(b2, c.event), c.followUps);
      }
    }
  }

  lemma {:induction false} RunKeeps(b: Bus, cs: seq<Call>)
    requires Inv(b) && forall c <- cs :: Disciplined(c)
    ensures Inv(PublishAll(b, cs))
    decreases cs
  {
    if cs != [] {
      assert cs[0] in cs;
      PublishKeeps(b, cs[0]);
      RunKeeps(Published(b, cs[0]).0, cs[1..]);
    }
  }

  predicate NoVeto(rs: seq<Reaction>) {
    forall r <- rs :: r.verdict != Veto
  }

  lemma {:induction false} ReactWithoutVeto(b: Bus, rs: seq<Reaction>)
    requires NoVeto(rs)
    ensures React(b, rs).1
    decreases rs
  {
    if rs != [] {
      assert rs[0] in rs;
      ReactWithoutVeto(PublishAll(b, rs[0].nested), rs[1..]);
    }
  }

  lemma KeyInWindow(b: Bus, key: string)
    requires Inv(b) && key != ""
    ensures key in b.seen <==>
      exists i :: 0 <= i < |b.log| && i >= |b.log| - b.maxEvents && b.log[i].dedupeKey == key
  {
    var start := |b.log| - |b.events|;
    assert forall i :: start <= i < |b.log| ==> b.events[i - start] == b.log[i];
    if key in b.seen {
      var j :| 0 <= j < |b.events| && b.events[j].dedupeKey == key;
      assert b.log[start + j].dedupeKey == key;
    }
  }

  // After any run, a keyed event that nothing else stands against is refused if and only
  // if one of the last `maxEvents` stored events carries its key.
  lemma RefusedExactlyInWindow(maxEvents: nat, run: seq<Call>, c: Call)
    requires forall r <- run :: Disciplined(r)
    requires c.event.dedupeKey != "" && !c.conflict && NoVeto(c.reactions)
    requires c.event.kind == Hidden || c.event.session !in PublishAll(NewBus(maxEvents), run).hidden
    ensures var b := PublishAll(NewBus(maxEvents), run);
      !Published(b, c).1 <==>
      exists i :: 0 <= i < |b.log| && i >= |b.log| - b.maxEvents && b.log[i].dedupeKey == c.event.dedupeKey
  {
    var b := PublishAll(NewBus(maxEvents), run);
    RunKeeps(NewBus(maxEvents), run);
    var b1 := Hide(b, c.event);
    ReactWithoutVeto(b1, c.reactions);
    KeyInWindow(b, c.event.dedupeKey);
  }

  // A delivery subscriber that publishes the key of the event it is given puts that key
  // into the window twice.
  lemma NestedKeyIsStoredTwice()
    ensures exists b, c :: Inv(b) && !Inv(Published(b, c).0)
  {
    var inner := Call(Event(1, OtherKind, ("p", "s"), "k"), false, [], []);
    var outer := Call(Event(0, OtherKind, ("p", "s"), "k"), false, [Reaction([inner], Proceed)], []);
    var b := NewBus(2);
    var b1 := Store(b, inner.event);
    assert Published(b, inner) == (b1, true);
    assert PublishAll(b, [inner]) == b1;
    assert outer.reactions[1..] == [];
    assert React(b, outer.reactions) == (b1, true);
    var b2 := Store(b1, outer.event);
    assert Published(b, outer) == (b2, true);
    assert b2.events[0].dedupeKey == b2.events[1].dedupeKey == "k";
  }

  // ---- hidden sessions ----

  // From b to b' the log grew, hidden sessions stayed hidden, and of the sessions hidden
  // in b only `session.hidden` itself was stored.
  predicate Silent(b: Bus, b': Bus) {
    && b.hidden <= b'.hidden
    && |b.log| <= |b'.log|
    && (forall i :: 0 <= i < |b.log| ==> b'.log[i] == b.log[i])
    && (forall i :: |b.log| <= i < |b'.log| && b'.log[i].session in b.hidden ==> b'.log[i].kind == Hidden)
  }

  lemma SilentTransitive(a: Bus, b: Bus, c: Bus)
    requires Silent(a, b) && Silent(b, c)
    ensures Silent(a, c)
  {
    forall i | |a.log| <= i < |c.log| && c.log[i].session in a.hidden ensures c.log[i].kind == Hidden {
      if i < |b.log| { assert c.log[i] == b.log[i]; }
    }
  }

  lemma {:induction false} HiddenSessionsStaySilent(b: Bus, c: Call)
    ensures Silent(b, Published(b, c).0)
    decreases c
  {
    var b1 := Hide(b, c.event);
    if !c.conflict && !Refuses(b1, c) {
      SilentReact(b1, c.reactions);
      var (b2, ok) := React(b1, c.reactions);
      if ok {
        var b3 := Store(b2, c.event);
        SilentAll(b3, c.followUps);
        assert Silent(b, b3);
        SilentTransitive(b, b3, PublishAll(b3, c.followUps));
      }
    }
  }

  lemma {:induction false} SilentReact(b: Bus, rs: seq<Reaction>)
    ensures Silent(b, React(b, rs).0)
    decreases rs
  {
    if rs != [] {
      var b1 := PublishAll(b, rs[0].nested);
      SilentAll(b, rs[0].nested);
      if rs[0].verdict != Veto {
        SilentReact(b1, rs[1..]);
        SilentTransitive(b, b1, React(b1, rs[1..]).0);
      }
    }
  }

  lemma {:induction false} SilentAll(b: Bus, cs: seq<Call>)
    ensures Silent(b, PublishAll(b, cs))
    decreases cs
  {
    if cs != [] {
      var b1 := Published(b, cs[0]).0;
      HiddenSessionsStaySilent(b, cs[0]);
      SilentAll(b1, cs[1..]);
      SilentTransitive(b, b1, PublishAll(b1, cs[1..]));
    }
  }

  // ---- what becomes of one publish ----

  lemma {:induction false} ReactExactly(b: Bus, rs: seq<Reaction>)
    ensures React(b, rs).1 <==> NoVeto(rs)
    decreases rs
  {
    if rs != [] {
      assert rs[0] in rs && forall r <- rs[1..] :: r in rs;
      ReactExactly(PublishAll(b, rs[0].nested), rs[1..]);
      assert forall r <- rs :: r == rs[0] || r in rs[1..];
    }
  }

  // An event is accepted exactly when its workspace agrees, its session is not hidden, its key
  // is new and no delivery subscriber vetoes it; one that raises does not stand in the way.
  lemma AcceptedExactly(b: Bus, c: Call)
    ensures Published(b, c).1 <==>
      && !c.conflict && (c.event.kind == Hidden || c.event.session !in b.hidden)
      && (c.event.dedupeKey == "" || c.event.dedupeKey !in b.seen) && NoVeto(c.reactions)
  {
    ReactExactly(Hide(b, c.event), c.reactions);
  }

  // An accepted event is stored.  A refused one is not: if no subscriber publishes anything of
  // its own, nothing but the hiding of a session is left of it.
  lemma StoredExactlyWhenAccepted(b: Bus, c: Call)
    ensures var (b', ok) := Published(b, c);
      && (ok ==> exists i :: |b.log| <= i < |b'.log| && b'.log[i] == c.event)
      && (!ok && (forall r <- c.reactions :: r.nested == []) ==> b' == b.(hidden := b'.hidden))
      && (!c.conflict && c.event.kind == Hidden ==> c.event.session in b'.hidden)
  {
    HiddenSessionsStaySilent(b, c);
    var b1 := Hide(b, c.event);
    if !c.conflict && !Refuses(b1, c) {
      SilentReact(b1, c.reactions);
      var (b2, ok) := React(b1, c.reactions);
      if ok {
        SilentAll(Store(b2, c.event), c.followUps);
        assert Published(b, c).0.log[|b2.log|] == c.event;
      } else if forall r <- c.reactions :: r.nested == [] {
        NothingNested(b1, c.reactions);
      }
    }
  }

  lemma {:induction false} NothingNested(b: Bus, rs: seq<Reaction>)
    requires forall r <- rs :: r.nested == []
    ensures React(b, rs).0 == b
    decreases rs
  {
    if rs != [] {
      assert rs[0] in rs && PublishAll(b, rs[0].nested) == b;
      NothingNested(b, rs[1..]);
    }
  }

  // ---- hydrated sessions ----

  // The session's history was loaded, and it was neither archived nor hidden since.
  predicate HydratedBy(log: seq<Event>, k: SessionKey) {
    exists i :: 0 <= i < |log| && log[i].session == k && log[i].kind == HistoryLoaded && Untouched(log, k, i)
  }

  predicate Untouched(log: seq<Event>, k: SessionKey, i: nat) {
    forall j :: i < j < |log| && log[j].session == k ==> log[j].kind != Archived && log[j].kind != Hidden
  }

  ghost predicate HydrationOk(b: Bus) {
    forall k :: k in b.hydrated <==> HydratedBy(b.log, k)
  }

  lemma HydratedAfterStore(log: seq<Event>, e: Event, k: SessionKey)
    ensures HydratedBy(log + [e], k) <==>
      if e.session != k || e.kind == OtherKind then HydratedBy(log, k) else e.kind == HistoryLoaded
  {
    var longer := log + [e];
    assert longer[|log|] == e && forall i :: 0 <= i < |log| ==> longer[i] == log[i];
    if HydratedBy(log, k) && (e.session != k || e.kind == OtherKind) {
      var i :| 0 <= i < |log| && log[i].session == k && log[i].kind == HistoryLoaded && Untouched(log, k, i);
      assert Untouched(longer, k, i);
    }
    if e.session == k && e.kind == HistoryLoaded { assert Untouched(longer, k, |log|); }
    if HydratedBy(longer, k) && (e.session != k || e.kind == OtherKind) {
      var i :| 0 <= i < |longer| && longer[i].session == k && longer[i].kind == HistoryLoaded
               && Untouched(longer, k, i);
      assert Untouched(log, k, i);
    }
  }

  lemma StoreKeepsHydration(b: Bus, e: Event)
    requires HydrationOk(b)
    ensures HydrationOk(Store(b, e))
  {
    forall k ensures k in Store(b, e).hydrated <==> HydratedBy(Store(b, e).log, k) {
      HydratedAfterStore(b.log, e, k);
    }
  }

  lemma {:induction false} PublishKeepsHydration(b: Bus, c: Call)
    requires HydrationOk(b)
    ensures HydrationOk(Published(b, c).0)
    decreases c
  {
    var b1 := Hide(b, c.event);
    if !c.conflict && !Refuses(b1, c) {
      ReactKeepsHydration(b1, c.reactions);
      var (b2, ok) := React(b1, c.reactions);
      if ok {
        StoreKeepsHydration(b2, c.event);
        RunKeepsHydration(Store(b2, c.event), c.followUps);
      }
    }
  }

  lemma {:induction false} ReactKeepsHydration(b: Bus, rs: seq<Reaction>)
    requires HydrationOk(b)
    ensures HydrationOk(React(b, rs).0)
    decreases rs
  {
    if rs != [] {
      RunKeepsHydration(b, rs[0].nested);
      if rs[0].verdict != Veto {
        ReactKeepsHydration(PublishAll(b, rs[0].nested), rs[1..]);
      }
    }
  }

  lemma {:induction false} RunKeepsHydration(b: Bus, cs: seq<Call>)
    requires HydrationOk(b)
    ensures HydrationOk(PublishAll(b, cs))
    decreases cs
  {
    if cs != [] {
      PublishKeepsHydration(b, cs[0]);
      RunKeepsHydration(Published(b, cs[0]).0, cs[1..]);
    }
  }

  // After any run, whatever the subscribers publish: a session counts as hydrated if and only
  // if its history was loaded and it was neither archived nor hidden since.
  lemma HydratedExactly(maxEvents: nat, run: seq<Call>, k: SessionKey)
    ensures var b := PublishAll(NewBus(maxEvents), run); k in b.hydrated <==> HydratedBy(b.log, k)
  {
    RunKeepsHydration(NewBus(maxEvents), run);
  }

  // ---- the bus, updated in place ----

  class MessageEventBus {
    const maxEvents: nat
    var events: seq<Event>
    var seenDedupeKeys: set<string>
    var hiddenSessions: set<SessionKey>
    var hydratedSessions: set<SessionKey>
    ghost var log: seq<Event>

    ghost function Now(): Bus
      reads this
    {
      Bus(maxEvents, events, seenDedupeKeys, hiddenSessions, hydratedSessions, log)
    }

    constructor (maxEvents: nat)
      ensures Now() == NewBus(maxEvents)
    {
      this.maxEvents := if maxEvents < 1 then 1 else maxEvents;
      events, seenDedupeKeys, hiddenSessions, hydratedSessions, log := [], {}, {}, {}, [];
    }

    method Publish(c: Call) returns (ok: bool)
      requires maxEvents >= 1
      modifies this
      ensures (Now(), ok) == Published(old(Now()), c)
      ensures old(Inv(Now())) && Disciplined(c) ==> Inv(Now())
      decreases c
    {
      if Inv(Now()) && Disciplined(c) { PublishKeeps(Now(), c); }
      var event := c.event;
      if c.conflict {
        return false;
      }
      if event.kind == Hidden {
        hiddenSessions := hiddenSessions + {event.session};
      } else if event.session in hiddenSessions {
        return false;
      }
      if event.dedupeKey != "" && event.dedupeKey in seenDedupeKeys {
        return false;
      }
      var delivered := Deliver(c.reactions);
      if !delivered {
        return false;
      }
      StoreEvent(event);
      PublishEach(c.followUps);
      return true;
    }

    // The loop over the delivery subscribers.
    method Deliver(reactions: seq<Reaction>) returns (ok: bool)
      requires maxEvents >= 1
      modifies this
      ensures (Now(), ok) == React(old(Now()), reactions)
      decreases reactions
    {
      for i := 0 to |reactions|
        invariant React(old(Now()), reactions) == React(Now(), reactions[i..])
      {
        var reaction := reactions[i];
        assert reactions[i..][1..] == reactions[i + 1..];
        assert reaction in reactions;
        PublishEach(reaction.nested);
        if reaction.verdict == Veto {
          return false;
        }
      }
      return true;
    }

    method StoreEvent(event: Event)
      modifies this
      ensures Now() == Store(old(Now()), event)
    {
      if event.dedupeKey != "" {
        seenDedupeKeys := seenDedupeKeys + {event.dedupeKey};
      }
      if |events| == maxEvents && events != [] {
        var evicted := events[0];
        if evicted.dedupeKey != "" {
          seenDedupeKeys := seenDedupeKeys - {evicted.dedupeKey};
        }
        events := events[1..];
      }
      events := events + [event];
      log := log + [event];
      match event.kind {
        case HistoryLoaded => hydratedSessions := hydratedSessions + {event.session};
        case Archived | Hidden => hydratedSessions := hydratedSessions - {event.session};
        case OtherKind =>
      }
    }

    method PublishEach(calls: seq<Call>)
      requires maxEvents >= 1
      modifies this
      ensures Now() == PublishAll(old(Now()), calls)
      decreases calls
    {
      for i := 0 to |calls|
        invariant PublishAll(old(Now()), calls) == PublishAll(Now(), calls[i..])
      {
        assert calls[i..][1..] == calls[i + 1..];
        assert calls[i] in calls;
        var _ := Publish(calls[i]);
      }
    }
  }
}
