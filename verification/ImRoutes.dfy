/**
 The route table that binds entries of an instant-messaging space (topics) to agents,
 workspaces and sessions: one SQLite table with CHECK constraints and partial unique
 indexes, changed only inside transactions that roll back when a constraint fails.
*/
module ImRoutes {
  import opened Prelude

  datatype Scope = AgentScope | WorkspaceScope | SessionScope | UnknownScope

  datatype RouteStatus = Active | Archived | Invalid | UnknownStatus

  datatype Space = Space(provider: string, account: string, space: string)

  // The primary key.
  datatype Key = Key(space: Space, entry: string)

  // What a row is bound to.
  datatype Target = Target(scope: Scope, agent: Option<string>, workspace: Option<string>, session: Option<string>)

  datatype Row = Row(
    entryKind: string,
    target: Target,
    workspacePath: Option<string>,
    displayName: Option<string>,
    status: RouteStatus,
    source: string,
    createdAt: int,
    updatedAt: int,
    lastSeenAt: int)

  type Table = map<Key, Row>

  // ---- constraints ----

  // The third CHECK of the table.
  predicate RowOk(r: Row) {
    match r.target.scope
    case UnknownScope =>
      r.status == UnknownStatus && r.target == Target(UnknownScope, None, None, None) && r.workspacePath.None?
    case AgentScope =>
      r.status != UnknownStatus && r.target.agent.Some? && r.target.workspace.None? && r.target.session.None?
    case WorkspaceScope =>
      r.status != UnknownStatus && r.target.agent.Some? && r.target.workspace.Some? && r.target.session.None?
    case SessionScope =>
      r.status != UnknownStatus && r.target.agent.Some? && r.target.workspace.Some? && r.target.session.Some?
  }

  // The row's entry in the partial unique indexes: the indexed columns, unless the row is
  // outside the index or one of the columns is NULL.
  function IndexKey(r: Row): Option<Target> {
    var t := r.target;
    if r.status != Active || t.agent.None? then None
    else match t.scope
         case UnknownScope => None
         case AgentScope => Some(Target(AgentScope, t.agent, None, None))
         case WorkspaceScope =>
           if t.workspace.None? then None else Some(Target(WorkspaceScope, t.agent, t.workspace, None))
         case SessionScope =>
           if t.workspace.None? || t.session.None? then None
           else Some(Target(SessionScope, t.agent, t.workspace, t.session))
  }

  predicate Clash(t: Table, k: Key, l: Key)
    requires k in t && l in t
  {
    k != l && k.space == l.space && IndexKey(t[k]).Some? && IndexKey(t[k]) == IndexKey(t[l])
  }

  predicate Legal(t: Table) {
    && (forall k <- t :: RowOk(t[k]))
    && (forall k, l :: k in t && l in t ==> !Clash(t, k, l))
  }

  // The end of a transaction: commit, or roll back and raise.
  function Commit(before: Table, after: Table): (Table, bool) {
    if Legal(after) then (after, true) else (before, false)
  }

  // ---- operations ----

  // The columns an upsert supplies.
  datatype Values = Values(
    entryKind: string,
    target: Target,
    workspacePath: Option<string>,
    displayName: Option<string>,
    status: RouteStatus,
    source: string)

  function NewRow(v: Values, createdAt: int, now: int): Row {
    Row(v.entryKind, v.target, v.workspacePath, v.displayName, v.status, v.source, createdAt, now, now)
  }

  predicate IsOtherActive(k: Key, r: Row, key: Key, target: Target) {
    && k.space == key.space && k.entry != key.entry && r.status == Active
    && r.target.scope == target.scope && target.agent.Some? && r.target.agent == target.agent
    && r.target.workspace == target.workspace && r.target.session == target.session
  }

  // _close_existing_active_target_routes
  function CloseOthers(t: Table, key: Key, target: Target, now: int): Table {
    map k | k in t ::
      if IsOtherActive(k, t[k], key, target) then t[k].(status := Invalid, updatedAt := now) else t[k]
  }

  // _upsert_route_conn, before the constraints are checked.
  function UpsertRaw(t: Table, key: Key, v: Values, now: int): Table {
    var closes := v.status == Active && v.target.scope != UnknownScope;
    var closed := if closes then CloseOthers(t, key, v.target, now) else t;
    closed[key := NewRow(v, if key in t then t[key].createdAt else now, now)]
  }

  function Upsert(t: Table, key: Key, v: Values, now: int): (Table, bool) {
    Commit(t, UpsertRaw(t, key, v, now))
  }

  predicate MayBecome(r: Row, status: RouteStatus) {
    match status
    case Active => r.status == Archived || r.status == Invalid
    case Invalid => r.status == Active || r.status == Archived || r.status == UnknownStatus
    case Archived => r.status == Active
    case UnknownStatus => r.status == UnknownStatus
  }

  // mark_telegram_topic_status
  function Mark(t: Table, key: Key, status: RouteStatus, now: int): (Table, bool) {
    if key in t && MayBecome(t[key], status)
    then Commit(t, t[key := t[key].(status := status, updatedAt := now)])
    else (t, true)
  }

  function Seen(r: Row, displayName: Option<string>, now: int): Row {
    r.(lastSeenAt := now,
       updatedAt := if r.status == UnknownStatus then now else r.updatedAt,
       displayName := if r.status == UnknownStatus && displayName.Some? then displayName else r.displayName)
  }

  const UnknownTarget := Target(UnknownScope, None, None, None)

  // observe_unknown_telegram_entry
  function Observe(t: Table, key: Key, displayName: Option<string>, now: int): (Table, bool) {
    if key in t then Commit(t, t[key := Seen(t[key], displayName, now)])
    else Upsert(t, key, Values("topic", UnknownTarget, None, displayName, UnknownStatus, "observed"), now)
  }

  // One topic of the JSON storage; `topic` is None where the storage has none.
  datatype Topic = Topic(
    topic: Option<string>,
    target: Target,
    workspacePath: Option<string>,
    displayName: Option<string>)

  predicate Binds(r: Row) {
    r.target.scope != UnknownScope
  }

  // The query of _migrate_route_conn.
  predicate Settled(t: Table, space: Space, topic: Topic) {
    topic.topic.Some? ==>
      exists k <- t :: k.space == space && Binds(t[k]) && (t[k].target == topic.target || k.entry == topic.topic.value)
  }

  function MigrateOne(t: Table, space: Space, topic: Topic, now: int): Table {
    if Settled(t, space, topic) then t
    else UpsertRaw(t, Key(space, topic.topic.value), MigratedValues(topic), now)
  }

  function MigratedValues(topic: Topic): Values {
    Values("topic", topic.target, topic.workspacePath, topic.displayName, Active, "migrated")
  }

  // The constraints are checked after each statement, so the first topic that breaks one
  // ends the migration.
  function Migrated(t: Table, space: Space, topics: seq<Topic>, now: int): (out: Option<Table>)
    ensures Legal(t) && out.Some? ==> Legal(out.value)
    decreases |topics|
  {
    if topics == [] then Some(t)
    else
      var t' := MigrateOne(t, space, topics[0], now);
      if Legal(t') then Migrated(t', space, topics[1..], now) else None
  }

  function Migrate(t: Table, space: Space, topics: seq<Topic>, now: int): (Table, bool) {
    match Migrated(t, space, topics, now)
    case None => (t, false)
    case Some(t') => (t', true)
  }

  // ---- lookups ----

  // get_telegram_route: the active row of an entry, if it is bound.
  function EntryTarget(t: Table, key: Key): Option<Target> {
    if key in t && t[key].status == Active && Binds(t[key]) then Some(t[key].target) else None
  }

  // The WHERE clause of _get_target_route: a NULL argument does not constrain its column.
  predicate Matches(t: Table, k: Key, space: Space, q: Target)
    requires k in t
  {
    && k.space == space && t[k].status == Active
    && t[k].target.scope == q.scope && q.agent.Some? && t[k].target.agent == q.agent
    && (q.workspace.Some? ==> t[k].target.workspace == q.workspace)
    && (q.session.Some? ==> t[k].target.session == q.session)
  }

  // ORDER BY updated_at DESC LIMIT 1
  predicate IsTargetRoute(t: Table, space: Space, q: Target, found: Option<Key>) {
    match found
    case None => forall k <- t :: !Matches(t, k, space, q)
    case Some(k) =>
      k in t && Matches(t, k, space, q) && forall l <- t :: Matches(t, l, space, q) ==> t[l].updatedAt <= t[k].updatedAt
  }

  // A target as the callers ask for it.
  predicate Proper(q: Target) {
    match q.scope
    case AgentScope => q.agent.Some? && q.workspace.None? && q.session.None?
    case WorkspaceScope => q.agent.Some? && q.workspace.Some? && q.session.None?
    case SessionScope => q.agent.Some? && q.workspace.Some? && q.session.Some?
    case UnknownScope => false
  }

  // ---- safety ----

  lemma CloseIsLegal(t: Table, key: Key, target: Target, now: int)
    requires Legal(t)
    ensures Legal(CloseOthers(t, key, target, now))
  {
    var c := CloseOthers(t, key, target, now);
    forall k, l | k in c && l in c ensures !Clash(c, k, l) {
      assert !Clash(t, k, l);
    }
  }

  // An upsert from a legal table aborts exactly when the new row violates a CHECK.  The
  // close makes room in the unique indexes.
  lemma UpsertAbortsExactlyOnBadRow(t: Table, key: Key, v: Values, now: int)
    requires Legal(t)
    ensures Upsert(t, key, v, now).1 <==> RowOk(NewRow(v, now, now))
  {
    var closes := v.status == Active && v.target.scope != UnknownScope;
    var closed := if closes then CloseOthers(t, key, v.target, now) else t;
    var after := UpsertRaw(t, key, v, now);
    CloseIsLegal(t, key, v.target, now);
    if RowOk(NewRow(v, now, now)) {
      forall k, l | k in after && l in after && k != l ensures !Clash(after, k, l) {
        if k != key && l != key {
          assert !Clash(closed, k, l);
        } else {
          var o := if k == key then l else k;
          assert RowOk(closed[o]);
          assert !IsOtherActive(o, closed[o], key, v.target) || v.status != Active || v.target.scope == UnknownScope;
        }
      }
    } else {
      assert key in after && !RowOk(after[key]);
    }
  }

  predicate SameIndex(t: Table, key: Key, row: Row, l: Key)
    requires l in t
  {
    l != key && l.space == key.space && IndexKey(row).Some? && IndexKey(row) == IndexKey(t[l])
  }

  // One row changed: its own CHECKs and its place in the indexes decide.
  lemma ReplacedRowIsLegal(t: Table, key: Key, row: Row)
    requires Legal(t) && key in t
    ensures Legal(t[key := row]) <==> RowOk(row) && forall l <- t :: !SameIndex(t, key, row, l)
  {
    var after := t[key := row];
    if RowOk(row) && forall l <- t :: !SameIndex(t, key, row, l) {
      forall k, l | k in after && l in after ensures !Clash(after, k, l) {
        if k != key && l != key {
          assert !Clash(t, k, l);
        }
      }
    } else if l :| l in t && SameIndex(t, key, row, l) {
      assert Clash(after, key, l);
    } else {
      assert !RowOk(after[key]);
    }
  }

  // Marking aborts exactly when an unknown row is to become invalid, or when the target
  // of the row to be re-activated is active elsewhere in the space.
  lemma MarkAbortsExactly(t: Table, key: Key, status: RouteStatus, now: int)
    requires Legal(t)
    ensures !Mark(t, key, status, now).1 <==>
      && key in t && MayBecome(t[key], status)
      && ((status == Invalid && t[key].status == UnknownStatus)
          || (status == Active && exists l <- t ::
                l != key && l.space == key.space && t[l].status == Active && t[l].target == t[key].target))
  {
    if key in t && MayBecome(t[key], status) {
      var row := t[key].(status := status, updatedAt := now);
      ReplacedRowIsLegal(t, key, row);
      assert RowOk(t[key]);
      forall l <- t ensures SameIndex(t, key, row, l) <==>
        status == Active && l != key && l.space == key.space && t[l].status == Active && t[l].target == row.target
      {
        assert RowOk(t[l]);
      }
    }
  }

  // Observing an entry neither aborts nor changes what an existing row is bound to.
  lemma ObserveChangesNoBinding(t: Table, key: Key, displayName: Option<string>, now: int)
    requires Legal(t)
    ensures var (t', ok) := Observe(t, key, displayName, now);
      && ok && Legal(t')
      && (forall k <- t :: k in t' && t'[k].target == t[k].target && t'[k].status == t[k].status
                           && t'[k].workspacePath == t[k].workspacePath)
      && t'.Keys == t.Keys + {key}
  {
    if key in t {
      var after := t[key := Seen(t[key], displayName, now)];
      forall k, l | k in after && l in after ensures !Clash(after, k, l) {
        assert !Clash(t, k, l);
      }
      forall k <- after ensures RowOk(after[k]) {
        assert RowOk(t[k]);
      }
    } else {
      var v := Values("topic", UnknownTarget, None, displayName, UnknownStatus, "observed");
      UpsertAbortsExactlyOnBadRow(t, key, v, now);
    }
  }

  // It is noted when an entry was seen; the name is taken over while the entry is not bound.
  lemma ObservedIsSeen(t: Table, key: Key, displayName: Option<string>, now: int)
    requires Legal(t)
    ensures var t' := Observe(t, key, displayName, now).0;
      && key in t' && t'[key].lastSeenAt == now
      && (key !in t ==> t'[key].status == UnknownStatus && !Binds(t'[key]) && t'[key].displayName == displayName)
      && (key in t && t[key].status == UnknownStatus && displayName.Some? ==> t'[key].displayName == displayName)
      && (key in t && (t[key].status != UnknownStatus || displayName.None?) ==>
            t'[key].displayName == t[key].displayName)
      && (forall k <- t :: k != key ==> k in t' && t'[k] == t[k])
  {
    ObserveChangesNoBinding(t, key, displayName, now);
  }

  // ---- the two lookups are inverse ----

  lemma OneRoutePerTarget(t: Table, space: Space, q: Target, k: Key, l: Key)
    requires Legal(t) && Proper(q)
    requires k in t && l in t && Matches(t, k, space, q) && Matches(t, l, space, q)
    ensures k == l && t[k].target == q
  {
    assert RowOk(t[k]) && RowOk(t[l]);
    assert !Clash(t, k, l);
  }

  // In a legal table, a target finds an entry exactly when the entry finds the target.
  lemma LookupsAreInverse(t: Table, space: Space, q: Target, found: Option<Key>, k: Key)
    requires Legal(t) && Proper(q) && IsTargetRoute(t, space, q, found)
    ensures found == Some(k) <==> k.space == space && EntryTarget(t, k) == Some(q)
  {
    if found.Some? {
      OneRoutePerTarget(t, space, q, found.value, found.value);
      if k in t && Matches(t, k, space, q) {
        OneRoutePerTarget(t, space, q, found.value, k);
      }
    }
  }

  // ---- a route that is bound is found ----

  // The lookups of a target lead to this entry and to no other.
  ghost predicate LeadsTo(t: Table, key: Key, q: Target) {
    && EntryTarget(t, key) == Some(q)
    && forall found :: IsTargetRoute(t, key.space, q, found) ==> found == Some(key)
  }

  lemma ActiveRowIsFound(t: Table, key: Key, q: Target)
    requires Legal(t) && Proper(q) && key in t && t[key].status == Active && t[key].target == q
    ensures LeadsTo(t, key, q)
  {
    forall found | IsTargetRoute(t, key.space, q, found) ensures found == Some(key) {
      LookupsAreInverse(t, key.space, q, found, key);
    }
  }

  // An active upsert of a proper target commits, and both lookups then find it, with the path
  // and name it was given.  The bound entries of other targets keep their lookups.
  lemma UpsertIsFound(t: Table, key: Key, v: Values, now: int)
    requires Legal(t) && v.status == Active && Proper(v.target)
    ensures var (t', ok) := Upsert(t, key, v, now);
      && ok && LeadsTo(t', key, v.target)
      && t'[key].workspacePath == v.workspacePath && t'[key].displayName == v.displayName
      && t'[key].entryKind == v.entryKind && t'[key].source == v.source
      && t'[key].createdAt == (if key in t then t[key].createdAt else now)
      && t'[key].updatedAt == t'[key].lastSeenAt == now
    ensures var t' := Upsert(t, key, v, now).0;
      forall k <- t :: k != key && EntryTarget(t, k).Some? && (k.space != key.space || t[k].target != v.target) ==>
        LeadsTo(t', k, t[k].target)
  {
    UpsertAbortsExactlyOnBadRow(t, key, v, now);
    var t' := Upsert(t, key, v, now).0;
    ActiveRowIsFound(t', key, v.target);
    forall k <- t | k != key && EntryTarget(t, k).Some? && (k.space != key.space || t[k].target != v.target)
      ensures LeadsTo(t', k, t[k].target)
    {
      assert RowOk(t[k]);
      assert !IsOtherActive(k, t[k], key, v.target);
      ActiveRowIsFound(t', k, t[k].target);
    }
  }

  // The entry that the target led to before is marked invalid and leads nowhere any more.
  lemma MovedRouteIsClosed(t: Table, key: Key, v: Values, now: int, k: Key)
    requires Legal(t) && v.status == Active && Proper(v.target)
    requires k in t && k != key && k.space == key.space && EntryTarget(t, k) == Some(v.target)
    ensures var t' := Upsert(t, key, v, now).0;
      EntryTarget(t', k) == None && k in t' && t'[k] == t[k].(status := Invalid, updatedAt := now)
  {
    UpsertAbortsExactlyOnBadRow(t, key, v, now);
  }

  // Marking decides whether the entry is found: an archived or invalid one is not, one that is
  // active again is.
  lemma MarkedRouteIsFoundExactly(t: Table, key: Key, status: RouteStatus, now: int)
    requires Legal(t) && key in t && MayBecome(t[key], status) && Mark(t, key, status, now).1 && Binds(t[key])
    ensures var t' := Mark(t, key, status, now).0;
      && (status == Active ==> LeadsTo(t', key, t[key].target))
      && (status != Active ==> EntryTarget(t', key) == None)
      && (forall k <- t :: k != key ==> k in t' && t'[k] == t[k])
  {
    var t' := Mark(t, key, status, now).0;
    assert RowOk(t[key]);
    if status == Active { ActiveRowIsFound(t', key, t[key].target); }
  }

  // Archiving a route and activating it again brings its lookups back.
  lemma ArchiveAndBack(t: Table, key: Key, q: Target, now: int, later: int)
    requires Legal(t) && Proper(q) && EntryTarget(t, key) == Some(q)
    ensures var (t1, ok1) := Mark(t, key, Archived, now); var (t2, ok2) := Mark(t1, key, Active, later);
      ok1 && EntryTarget(t1, key) == None && ok2 && LeadsTo(t2, key, q)
  {
    MarkAbortsExactly(t, key, Archived, now);
    var t1 := Mark(t, key, Archived, now).0;
    assert RowOk(t[key]);
    forall l <- t1 ensures !(l != key && l.space == key.space && t1[l].status == Active && t1[l].target == q) {
      assert !Clash(t, key, l);
    }
    MarkAbortsExactly(t1, key, Active, later);
    ActiveRowIsFound(Mark(t1, key, Active, later).0, key, q);
  }

  // ---- migration ----

  // Rows that bind are left alone.
  predicate KeepsBindings(t: Table, t': Table) {
    forall k <- t :: Binds(t[k]) ==> k in t' && t'[k] == t[k]
  }

  lemma MigrateOneKeeps(t: Table, space: Space, topic: Topic, now: int)
    requires Legal(t) && Proper(topic.target)
    ensures var t' := MigrateOne(t, space, topic, now);
      Legal(t') && KeepsBindings(t, t') && Settled(t', space, topic)
  {
    if !Settled(t, space, topic) {
      var key := Key(space, topic.topic.value);
      var v := MigratedValues(topic);
      UpsertAbortsExactlyOnBadRow(t, key, v, now);
      forall k <- t ensures !IsOtherActive(k, t[k], key, v.target) {
      }
      var t' := UpsertRaw(t, key, v, now);
      assert key in t' && t'[key].target == topic.target;
    }
  }

  // A topic that the migration inserts is found by both lookups.
  lemma MigratedTopicIsFound(t: Table, space: Space, topic: Topic, now: int)
    requires Legal(t) && Proper(topic.target) && !Settled(t, space, topic)
    ensures LeadsTo(MigrateOne(t, space, topic, now), Key(space, topic.topic.value), topic.target)
  {
    UpsertIsFound(t, Key(space, topic.topic.value), MigratedValues(topic), now);
  }

  lemma StillSettled(t: Table, t': Table, space: Space, topic: Topic)
    requires Settled(t, space, topic) && KeepsBindings(t, t')
    ensures Settled(t', space, topic)
  {
    if topic.topic.Some? {
      var k :| k in t && k.space == space && Binds(t[k])
               && (t[k].target == topic.target || k.entry == topic.topic.value);
      assert k in t';
    }
  }

  // No run of the migration aborts, nor changes a row that was not `unknown`.
  lemma {:induction false} MigrationKeepsBindings(t: Table, space: Space, topics: seq<Topic>, now: int)
    requires Legal(t) && forall topic <- topics :: Proper(topic.target)
    ensures var (t', ok) := Migrate(t, space, topics, now);
      ok && Legal(t') && KeepsBindings(t, t') && forall topic <- topics :: Settled(t', space, topic)
    decreases |topics|
  {
    if topics != [] {
      var t1 := MigrateOne(t, space, topics[0], now);
      assert topics[0] in topics;
      MigrateOneKeeps(t, space, topics[0], now);
      MigrationKeepsBindings(t1, space, topics[1..], now);
      var t' := Migrate(t1, space, topics[1..], now).0;
      StillSettled(t1, t', space, topics[0]);
      assert forall topic <- topics :: topic == topics[0] || topic in topics[1..];
    }
  }

  // Bound rows are kept, so their lookups are.
  lemma FoundStaysFound(t: Table, t': Table, key: Key, q: Target)
    requires LeadsTo(t, key, q) && KeepsBindings(t, t') && Legal(t') && Proper(q)
    ensures LeadsTo(t', key, q)
  {
    assert t'[key] == t[key];
    ActiveRowIsFound(t', key, q);
  }

  // Every topic that the migration inserts is found by both lookups when it has ended.
  lemma {:induction false} MigratedTopicsAreFound(t: Table, space: Space, topics: seq<Topic>, now: int, i: nat)
    requires Legal(t) && (forall topic <- topics :: Proper(topic.target)) && i < |topics|
    requires !Settled(Migrate(t, space, topics[..i], now).0, space, topics[i])
    ensures LeadsTo(Migrate(t, space, topics, now).0, Key(space, topics[i].topic.value), topics[i].target)
    decreases |topics|
  {
    var t1 := MigrateOne(t, space, topics[0], now);
    assert topics[0] in topics;
    MigrateOneKeeps(t, space, topics[0], now);
    MigrateSteps(t, space, topics, now);
    if i == 0 {
      assert topics[..0] == [];
      MigratedTopicIsFound(t, space, topics[0], now);
      MigrationKeepsBindings(t1, space, topics[1..], now);
      FoundStaysFound(t1, Migrate(t1, space, topics[1..], now).0, Key(space, topics[0].topic.value), topics[0].target);
    } else {
      MigrateSteps(t, space, topics[..i], now);
      assert topics[..i][1..] == topics[1..][..i - 1];
      MigratedTopicsAreFound(t1, space, topics[1..], now, i - 1);
    }
  }

  lemma MigrateSteps(t: Table, space: Space, topics: seq<Topic>, now: int)
    requires Legal(t) && topics != [] && Proper(topics[0].target)
    requires forall topic <- topics :: Proper(topic.target)
    ensures Migrate(t, space, topics, now).0 == Migrate(MigrateOne(t, space, topics[0], now), space, topics[1..], now).0
  {
    MigrateOneKeeps(t, space, topics[0], now);
    MigrationKeepsBindings(MigrateOne(t, space, topics[0], now), space, topics[1..], now);
  }

  lemma {:induction false} SettledMigrationDoesNothing(t: Table, space: Space, topics: seq<Topic>, now: int)
    requires Legal(t) && forall topic <- topics :: Settled(t, space, topic)
    ensures Migrate(t, space, topics, now) == (t, true)
    decreases |topics|
  {
    if topics != [] {
      assert topics[0] in topics;
      SettledMigrationDoesNothing(t, space, topics[1..], now);
    }
  }

  // A second run with the same storage leaves the table as it is, timestamps included,
  // even after other operations that keep the bound rows.
  lemma MigrationIsIdempotent(t: Table, space: Space, topics: seq<Topic>, now: int, later: int)
    requires Legal(t) && forall topic <- topics :: Proper(topic.target)
    ensures var t' := Migrate(t, space, topics, now).0; Migrate(t', space, topics, later) == (t', true)
  {
    MigrationKeepsBindings(t, space, topics, now);
    SettledMigrationDoesNothing(Migrate(t, space, topics, now).0, space, topics, later);
  }

  // ---- every reachable table ----

  datatype Op =
    | UpsertOp(key: Key, values: Values, now: int)
    | MarkOp(key: Key, status: RouteStatus, now: int)
    | ObserveOp(key: Key, displayName: Option<string>, now: int)
    | MigrateOp(space: Space, topics: seq<Topic>, now: int)

  function Exec(t: Table, op: Op): (Table, bool) {
    match op
    case UpsertOp(key, v, now) => Upsert(t, key, v, now)
    case MarkOp(key, status, now) => Mark(t, key, status, now)
    case ObserveOp(key, name, now) => Observe(t, key, name, now)
    case MigrateOp(space, topics, now) => Migrate(t, space, topics, now)
  }

  function ExecAll(t: Table, ops: seq<Op>): Table
    decreases |ops|
  {
    if ops == [] then t else ExecAll(Exec(t, ops[0]).0, ops[1..])
  }

  lemma ExecKeepsLegal(t: Table, op: Op)
    requires Legal(t)
    ensures Legal(Exec(t, op).0) && (Exec(t, op).1 || Exec(t, op).0 == t)
  {
  }

  // Each operation commits a legal table or leaves the table unchanged.
  lemma {:induction false} ReachableIsLegal(t: Table, ops: seq<Op>)
    requires Legal(t)
    ensures Legal(ExecAll(t, ops))
    ensures forall op <- ops :: Exec(t, op).1 || Exec(t, op).0 == t
    decreases |ops|
  {
    forall op <- ops ensures Exec(t, op).1 || Exec(t, op).0 == t {
      ExecKeepsLegal(t, op);
    }
    if ops != [] {
      ExecKeepsLegal(t, ops[0]);
      ReachableIsLegal(Exec(t, ops[0]).0, ops[1..]);
    }
  }

  // In every table reached from the empty one, by whatever operations, the active bound
  // entries of a space and their targets correspond one to one.
  lemma ActiveRoutesAreOneToOne(ops: seq<Op>, k: Key, l: Key)
    ensures var t := ExecAll(map[], ops);
      EntryTarget(t, k).Some? && EntryTarget(t, k) == EntryTarget(t, l) && k.space == l.space ==> k == l
  {
    var t := ExecAll(map[], ops);
    ReachableIsLegal(map[], ops);
    if EntryTarget(t, k).Some? && EntryTarget(t, k) == EntryTarget(t, l) && k.space == l.space {
      OneRoutePerTarget(t, k.space, t[k].target, k, l);
    }
  }

  // ---- the store, changed in place inside transactions ----

  class ImRouteStore {
    var rows: Table

    constructor ()
      ensures rows == map[]
    {
      rows := map[];
    }

    // The end of `with self._connect()`; false is the exception after the rollback.
    method EndTransaction(saved: Table) returns (committed: bool)
      modifies this
      ensures (rows, committed) == Commit(saved, old(rows))
    {
      committed := Legal(rows);
      if !committed {
        rows := saved;
      }
    }

    method CloseExistingActiveTargetRoutes(key: Key, target: Target, now: int)
      modifies this
      ensures rows == CloseOthers(old(rows), key, target, now)
    {
      var rest := rows.Keys;
      while rest != {}
        invariant rest <= rows.Keys == old(rows).Keys
        invariant forall k <- rows ::
          rows[k] == if k in rest then old(rows)[k] else CloseOthers(old(rows), key, target, now)[k]
        decreases |rest|
      {
        var k :| k in rest;
        rest := rest - {k};
        if IsOtherActive(k, rows[k], key, target) {
          rows := rows[k := rows[k].(status := Invalid, updatedAt := now)];
        }
      }
    }

    method UpsertRouteConn(key: Key, v: Values, now: int)
      modifies this
      ensures rows == UpsertRaw(old(rows), key, v, now)
    {
      if v.status == Active && v.target.scope != UnknownScope {
        CloseExistingActiveTargetRoutes(key, v.target, now);
      }
      var createdAt := if key in rows then rows[key].createdAt else now;
      rows := rows[key := NewRow(v, createdAt, now)];
    }

    method UpsertRoute(key: Key, v: Values, now: int) returns (ok: bool)
      requires Legal(rows)
      modifies this
      ensures (rows, ok) == Upsert(old(rows), key, v, now)
      ensures Legal(rows) && (!ok ==> rows == old(rows))
    {
      var saved := rows;
      UpsertRouteConn(key, v, now);
      ok := EndTransaction(saved);
    }

    // ok is false when the transaction raised; changed is the row count.
    method MarkTopicStatus(key: Key, status: RouteStatus, now: int) returns (ok: bool, changed: bool)
      requires Legal(rows)
      modifies this
      ensures (rows, ok) == Mark(old(rows), key, status, now)
      ensures Legal(rows) && (!ok ==> rows == old(rows))
      ensures changed == (ok && key in old(rows) && MayBecome(old(rows)[key], status))
    {
      if key !in rows || !MayBecome(rows[key], status) {
        return true, false;
      }
      var saved := rows;
      rows := rows[key := rows[key].(status := status, updatedAt := now)];
      ok := EndTransaction(saved);
      changed := ok;
    }

    method ObserveUnknownEntry(key: Key, displayName: Option<string>, now: int) returns (ok: bool)
      requires Legal(rows)
      modifies this
      ensures (rows, ok) == Observe(old(rows), key, displayName, now)
      ensures ok && Legal(rows)
    {
      ObserveChangesNoBinding(rows, key, displayName, now);
      if key in rows {
        var saved := rows;
        rows := rows[key := Seen(rows[key], displayName, now)];
        ok := EndTransaction(saved);
      } else {
        ok := UpsertRoute(key, Values("topic", UnknownTarget, None, displayName, UnknownStatus, "observed"), now);
      }
    }

    method MigrateJsonTopics(space: Space, topics: seq<Topic>, now: int) returns (ok: bool)
      requires Legal(rows)
      modifies this
      ensures (rows, ok) == Migrate(old(rows), space, topics, now)
      ensures Legal(rows) && (!ok ==> rows == old(rows))
      ensures (forall topic <- topics :: Proper(topic.target)) ==> ok && KeepsBindings(old(rows), rows)
    {
      if forall topic <- topics :: Proper(topic.target) { MigrationKeepsBindings(rows, space, topics, now); }
      var saved := rows;
      for i := 0 to |topics|
        invariant Legal(rows) && Migrated(rows, space, topics[i..], now) == Migrated(saved, space, topics, now)
      {
        assert topics[i..][1..] == topics[i + 1..];
        var raised := MigrateRouteConn(space, topics[i], now);
        if raised {
          rows := saved;
          return false;
        }
      }
      ok := true;
    }

    // Inserts nothing for a topic that is settled; raises when a statement breaks a constraint.
    method MigrateRouteConn(space: Space, topic: Topic, now: int) returns (raised: bool)
      modifies this
      ensures rows == MigrateOne(old(rows), space, topic, now) && raised == !Legal(rows)
    {
      if topic.topic.Some? {
        var existing := SelectExisting(space, topic);
        if !existing {
          UpsertRouteConn(Key(space, topic.topic.value), MigratedValues(topic), now);
        }
      }
      raised := !Legal(rows);
    }

    method SelectExisting(space: Space, topic: Topic) returns (existing: bool)
      requires topic.topic.Some?
      ensures existing == Settled(rows, space, topic)
    {
      var rest := rows.Keys;
      while rest != {}
        invariant rest <= rows.Keys
        invariant forall k <- rows.Keys - rest ::
          !(k.space == space && Binds(rows[k]) && (rows[k].target == topic.target || k.entry == topic.topic.value))
        decreases |rest|
      {
        var k :| k in rest;
        if k.space == space && Binds(rows[k]) && (rows[k].target == topic.target || k.entry == topic.topic.value) {
          return true;
        }
        rest := rest - {k};
      }
      return false;
    }

    method GetTargetRoute(space: Space, q: Target) returns (found: Option<Key>)
      ensures IsTargetRoute(rows, space, q, found)
      ensures Legal(rows) && Proper(q) ==>
        forall k: Key :: found == Some(k) <==> k.space == space && EntryTarget(rows, k) == Some(q)
    {
      found := None;
      var rest := rows.Keys;
      while rest != {}
        invariant rest <= rows.Keys
        invariant match found
          case None => forall k <- rows.Keys - rest :: !Matches(rows, k, space, q)
          case Some(k) =>
            k in rows && Matches(rows, k, space, q)
            && forall l <- rows.Keys - rest :: Matches(rows, l, space, q) ==> rows[l].updatedAt <= rows[k].updatedAt
        decreases |rest|
      {
        var k :| k in rest;
        rest := rest - {k};
        if Matches(rows, k, space, q) && (found.None? || rows[found.value].updatedAt < rows[k].updatedAt) {
          found := Some(k);
        }
      }
      if Legal(rows) && Proper(q) {
        forall k: Key ensures found == Some(k) <==> k.space == space && EntryTarget(rows, k) == Some(q) {
          LookupsAreInverse(rows, space, q, found, k);
        }
      }
    }
  }
}
