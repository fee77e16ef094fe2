/**
 The persistent application state as a JSON document: what a save writes and what a load
 makes of it.  The text encoding of JSON is taken to be faithful.
*/
module Storage {
  import opened Prelude

  // The field names the program writes and reads.
  datatype Name =
    | THREAD_ID | TOPIC_ID | PREVIEW | ARCHIVED | STREAMING_MSG_ID | LAST_TG_USER_MESSAGE_ID | HEADER_MESSAGE_ID
    | HISTORY_SYNC_CURSOR | IS_ACTIVE | SOURCE | ARCHIVE_MODE | NEW_SESSION_RECOVERY | SEND_RECOVERY
    | NAME | PATH | TOOL | DAEMON_WORKSPACE_ID | THREADS | PENDING_NEW_SESSION | ACTIVE_THREAD_ID
    | WORKSPACES | ACTIVE_WORKSPACE | GLOBAL_TOPIC_IDS

  // An object is a Record when its keys are the program's field names and a Dict when they are data.
  datatype Json =
    | Null | Bool(b: bool) | Num(n: int) | Str(s: string) | Arr(elements: seq<Json>)
    | Record(fields: Fields) | Dict(items: Items)

  type Fields = map<Name, Json>
  type Items = map<string, Json>

  datatype ThreadInfo = ThreadInfo(
    threadId: string,
    topicId: Option<int>,
    preview: Option<string>,
    archived: bool,
    streamingMsgId: Option<int>,
    lastUserMessageId: Option<int>,
    headerMessageId: Option<int>,
    historySyncCursor: Option<string>,
    isActive: bool,
    source: string,
    archiveMode: string,
    newSessionRecovery: Items,
    sendRecovery: Items)

  datatype WorkspaceInfo = WorkspaceInfo(
    name: string,
    path: string,
    tool: string,
    topicId: Option<int>,
    daemonWorkspaceId: Option<string>,
    headerMessageId: Option<int>,
    threads: map<string, ThreadInfo>,
    pendingNewSession: Items,
    legacyActiveThreadId: Option<string>)

  datatype AppStorage = AppStorage(
    workspaces: map<string, WorkspaceInfo>,
    activeWorkspace: Option<string>,
    globalTopicIds: map<string, int>)

  const EmptyStorage := AppStorage(map[], None, map[])

  // ---- to a document ----

  function OptStr(v: Option<string>): Json {
    match v case None => Null case Some(s) => Str(s)
  }

  function OptNum(v: Option<int>): Json {
    match v case None => Null case Some(n) => Num(n)
  }

  // A field written only when it holds something.
  function UnlessEmpty(key: Name, items: Items): Fields {
    if items == map[] then map[] else map[key := Dict(items)]
  }

  function RequiredFields(t: ThreadInfo): Fields {
    map[THREAD_ID := Str(t.threadId),
        PREVIEW := OptStr(t.preview),
        ARCHIVED := Bool(t.archived),
        STREAMING_MSG_ID := OptNum(t.streamingMsgId),
        LAST_TG_USER_MESSAGE_ID := OptNum(t.lastUserMessageId),
        HEADER_MESSAGE_ID := OptNum(t.headerMessageId),
        HISTORY_SYNC_CURSOR := OptStr(t.historySyncCursor),
        IS_ACTIVE := Bool(t.isActive),
        SOURCE := Str(t.source)]
  }

  function ThreadToJson(t: ThreadInfo): Json {
    Record(RequiredFields(t)
           + (if t.archiveMode == "" then map[] else map[ARCHIVE_MODE := Str(t.archiveMode)])
           + UnlessEmpty(NEW_SESSION_RECOVERY, t.newSessionRecovery)
           + UnlessEmpty(SEND_RECOVERY, t.sendRecovery))
  }

  function RequiredWorkspaceFields(ws: WorkspaceInfo): Fields {
    map[NAME := Str(ws.name),
        PATH := Str(ws.path),
        TOOL := Str(ws.tool),
        DAEMON_WORKSPACE_ID := OptStr(ws.daemonWorkspaceId),
        HEADER_MESSAGE_ID := OptNum(ws.headerMessageId)]
  }

  function ThreadItems(threads: map<string, ThreadInfo>): Items {
    map k | k in threads :: ThreadToJson(threads[k])
  }

  function WorkspaceToJson(ws: WorkspaceInfo): Json {
    Record(RequiredWorkspaceFields(ws)
           + UnlessEmpty(PENDING_NEW_SESSION, ws.pendingNewSession)
           + map[THREADS := Dict(ThreadItems(ws.threads))])
  }

  function StorageToJson(s: AppStorage): Json {
    Record(map[WORKSPACES := Dict(map k | k in s.workspaces :: WorkspaceToJson(s.workspaces[k])),
               ACTIVE_WORKSPACE := OptStr(s.activeWorkspace)])
  }

  // ---- from a document; None is the exception ----

  function GetStr(d: Fields, key: Name): Option<string> {
    if key in d && d[key].Str? then Some(d[key].s) else None
  }

  function GetOptStr(d: Fields, key: Name): Option<Option<string>> {
    if key !in d || d[key].Null? then Some(None)
    else if d[key].Str? then Some(Some(d[key].s)) else None
  }

  function GetOptNum(d: Fields, key: Name): Option<Option<int>> {
    if key !in d || d[key].Null? then Some(None)
    else if d[key].Num? then Some(Some(d[key].n)) else None
  }

  function GetBool(d: Fields, key: Name): Option<bool> {
    if key !in d then Some(false) else if d[key].Bool? then Some(d[key].b) else None
  }

  // `str(d.get(key) or default)`
  function GetStrOr(d: Fields, key: Name, default: string): Option<string> {
    match GetOptStr(d, key)
    case None => None
    case Some(None) => Some(default)
    case Some(Some(s)) => Some(if s == "" then default else s)
  }

  // `dict(d.get(key) or {})`
  function GetDictOr(d: Fields, key: Name): Option<Items> {
    if key in d && d[key].Null? then Some(map[]) else GetDict(d, key)
  }

  // `d.get(key, {}).items()`
  function GetDict(d: Fields, key: Name): Option<Items> {
    if key !in d then Some(map[])
    else if d[key].Dict? then Some(d[key].items) else None
  }

  // _thread_info_from_dict
  function ThreadFromJson(j: Json): Option<ThreadInfo> {
    if !j.Record? then None
    else
      var d := j.fields;
      var id, topic, preview, archived :=
        GetStr(d, THREAD_ID), GetOptNum(d, TOPIC_ID), GetOptStr(d, PREVIEW), GetBool(d, ARCHIVED);
      var streaming, last, header :=
        GetOptNum(d, STREAMING_MSG_ID), GetOptNum(d, LAST_TG_USER_MESSAGE_ID), GetOptNum(d, HEADER_MESSAGE_ID);
      var cursor, active := GetOptStr(d, HISTORY_SYNC_CURSOR), GetBool(d, IS_ACTIVE);
      var source, mode := GetStrOr(d, SOURCE, "unknown"), GetStrOr(d, ARCHIVE_MODE, "");
      var newSession, send := GetDictOr(d, NEW_SESSION_RECOVERY), GetDictOr(d, SEND_RECOVERY);
      if id.None? || topic.None? || preview.None? || archived.None? || streaming.None? || last.None? || header.None?
         || cursor.None? || active.None? || source.None? || mode.None? || newSession.None? || send.None?
      then None
      else Some(ThreadInfo(id.value, topic.value, preview.value, archived.value, streaming.value, last.value,
                           header.value, cursor.value, active.value, source.value, mode.value, newSession.value,
                           send.value))
  }

  function Prefix(key: string): string {
    if key == "" || key[0] == ':' then "" else [key[0]] + Prefix(key[1..])
  }

  // _infer_tool_from_storage_key
  function InferTool(key: string): string {
    if ':' in key then Prefix(key) else ""
  }

  function ThreadsFromJson(items: Items): Option<map<string, ThreadInfo>> {
    if exists k <- items :: ThreadFromJson(items[k]).None? then None
    else Some(map k | k in items :: ThreadFromJson(items[k]).value)
  }

  // _workspace_info_from_dict
  function WorkspaceFromJson(key: string, j: Json): Option<WorkspaceInfo> {
    if !j.Record? then None
    else
      var d := j.fields;
      var name, path, tool, topic :=
        GetStr(d, NAME), GetStr(d, PATH), GetStrOr(d, TOOL, InferTool(key)), GetOptNum(d, TOPIC_ID);
      var daemon, header := GetOptStr(d, DAEMON_WORKSPACE_ID), GetOptNum(d, HEADER_MESSAGE_ID);
      var items, pending, legacy :=
        GetDict(d, THREADS), GetDictOr(d, PENDING_NEW_SESSION), GetOptStr(d, ACTIVE_THREAD_ID);
      if name.None? || path.None? || tool.None? || topic.None? || daemon.None? || header.None?
         || items.None? || pending.None? || legacy.None? || ThreadsFromJson(items.value).None?
      then None
      else
        var threads := ThreadsFromJson(items.value).value;
        Some(WorkspaceInfo(name.value, path.value, tool.value, topic.value, daemon.value, header.value, threads,
                           pending.value,
                           if legacy.value != Some("") && threads == map[] then legacy.value else None))
  }

  function WorkspacesFromJson(items: Items): Option<map<string, WorkspaceInfo>> {
    if exists k <- items :: WorkspaceFromJson(k, items[k]).None? then None
    else Some(map k | k in items :: WorkspaceFromJson(k, items[k]).value)
  }

  function TopicIds(items: Items): Option<map<string, int>> {
    if exists k <- items :: !items[k].Num? then None else Some(map k | k in items :: items[k].n)
  }

  // _load_storage_path, after json.load
  function StorageFromJson(j: Json): Option<AppStorage> {
    if !j.Record? then None
    else
      var d := j.fields;
      var items, active, topics := GetDict(d, WORKSPACES), GetOptStr(d, ACTIVE_WORKSPACE), GetDict(d, GLOBAL_TOPIC_IDS);
      if items.None? || active.None? || topics.None?
         || WorkspacesFromJson(items.value).None? || TopicIds(topics.value).None?
      then None
      else Some(AppStorage(WorkspacesFromJson(items.value).value, active.value, TopicIds(topics.value).value))
  }

  // ---- round trip ----

  // What of a state survives a save and a load: everything but the legacy topic ids, and
  // the empty source and tool, which come back as their defaults.
  function KeptThread(t: ThreadInfo): ThreadInfo {
    t.(topicId := None, source := if t.source == "" then "unknown" else t.source)
  }

  function KeptThreads(threads: map<string, ThreadInfo>): map<string, ThreadInfo> {
    map k | k in threads :: KeptThread(threads[k])
  }

  function KeptWorkspace(key: string, ws: WorkspaceInfo): WorkspaceInfo {
    ws.(topicId := None, legacyActiveThreadId := None,
        tool := if ws.tool == "" then InferTool(key) else ws.tool,
        threads := KeptThreads(ws.threads))
  }

  function Kept(s: AppStorage): AppStorage {
    s.(globalTopicIds := map[],
       workspaces := map k | k in s.workspaces :: KeptWorkspace(k, s.workspaces[k]))
  }

  // The members that come back from d are those of t.
  predicate IdFieldsRead(d: Fields, t: ThreadInfo) {
    && GetStr(d, THREAD_ID) == Some(t.threadId) && GetOptNum(d, TOPIC_ID) == Some(t.topicId)
    && GetOptNum(d, STREAMING_MSG_ID) == Some(t.streamingMsgId)
    && GetOptNum(d, LAST_TG_USER_MESSAGE_ID) == Some(t.lastUserMessageId)
    && GetOptNum(d, HEADER_MESSAGE_ID) == Some(t.headerMessageId)
  }

  predicate ViewFieldsRead(d: Fields, t: ThreadInfo) {
    && GetOptStr(d, PREVIEW) == Some(t.preview) && GetOptStr(d, HISTORY_SYNC_CURSOR) == Some(t.historySyncCursor)
    && GetBool(d, ARCHIVED) == Some(t.archived) && GetBool(d, IS_ACTIVE) == Some(t.isActive)
  }

  predicate TextFieldsRead(d: Fields, t: ThreadInfo) {
    GetStrOr(d, SOURCE, "unknown") == Some(t.source) && GetStrOr(d, ARCHIVE_MODE, "") == Some(t.archiveMode)
  }

  predicate OptionalFieldsRead(d: Fields, t: ThreadInfo) {
    && GetDictOr(d, NEW_SESSION_RECOVERY) == Some(t.newSessionRecovery)
    && GetDictOr(d, SEND_RECOVERY) == Some(t.sendRecovery)
  }

  lemma ReadThread(d: Fields, t: ThreadInfo)
    requires IdFieldsRead(d, t) && ViewFieldsRead(d, t) && TextFieldsRead(d, t) && OptionalFieldsRead(d, t)
    ensures ThreadFromJson(Record(d)) == Some(t)
  {
  }

  lemma RequiredIds(t: ThreadInfo)
    ensures IdFieldsRead(RequiredFields(t), KeptThread(t))
  {
  }

  lemma RequiredView(t: ThreadInfo)
    ensures ViewFieldsRead(RequiredFields(t), KeptThread(t))
  {
  }

  predicate SameOutside(d: Fields, r: Fields, keys: set<Name>) {
    forall k: Name | k !in keys :: (k in d <==> k in r) && (k in d ==> d[k] == r[k])
  }

  const OptionalNames := {ARCHIVE_MODE, NEW_SESSION_RECOVERY, SEND_RECOVERY}

  // The optional fields hide none of the required ones.
  lemma OptionalHideNothing(t: ThreadInfo)
    ensures SameOutside(ThreadToJson(t).fields, RequiredFields(t), OptionalNames)
  {
  }

  lemma SameReads(d: Fields, r: Fields, t: ThreadInfo)
    requires SameOutside(d, r, OptionalNames) && IdFieldsRead(r, t) && ViewFieldsRead(r, t)
    ensures IdFieldsRead(d, t) && ViewFieldsRead(d, t)
  {
  }

  lemma WriteText(t: ThreadInfo)
    ensures TextFieldsRead(ThreadToJson(t).fields, KeptThread(t))
  {
  }

  lemma WriteOptional(t: ThreadInfo)
    ensures OptionalFieldsRead(ThreadToJson(t).fields, KeptThread(t))
  {
  }

  lemma ThreadRoundTrip(t: ThreadInfo)
    ensures ThreadFromJson(ThreadToJson(t)) == Some(KeptThread(t))
  {
    RequiredIds(t);
    RequiredView(t);
    OptionalHideNothing(t);
    SameReads(ThreadToJson(t).fields, RequiredFields(t), KeptThread(t));
    WriteText(t);
    WriteOptional(t);
    ReadThread(ThreadToJson(t).fields, KeptThread(t));
  }

  lemma ReadThreads(items: Items, threads: map<string, ThreadInfo>)
    requires items.Keys == threads.Keys
    requires forall k <- threads :: ThreadFromJson(items[k]) == Some(threads[k])
    ensures ThreadsFromJson(items) == Some(threads)
  {
    assert forall k <- items :: ThreadFromJson(items[k]).Some?;
    assert ThreadsFromJson(items).value == threads;
  }

  predicate NamingFieldsRead(key: string, d: Fields, ws: WorkspaceInfo) {
    && GetStr(d, NAME) == Some(ws.name) && GetStr(d, PATH) == Some(ws.path)
    && GetStrOr(d, TOOL, InferTool(key)) == Some(ws.tool) && GetOptNum(d, TOPIC_ID) == Some(ws.topicId)
  }

  predicate WorkspaceFieldsRead(d: Fields, ws: WorkspaceInfo) {
    && GetOptStr(d, DAEMON_WORKSPACE_ID) == Some(ws.daemonWorkspaceId)
    && GetOptNum(d, HEADER_MESSAGE_ID) == Some(ws.headerMessageId)
    && GetDictOr(d, PENDING_NEW_SESSION) == Some(ws.pendingNewSession)
    && GetOptStr(d, ACTIVE_THREAD_ID) == Some(ws.legacyActiveThreadId)
  }

  lemma ReadWorkspace(key: string, d: Fields, items: Items, ws: WorkspaceInfo)
    requires NamingFieldsRead(key, d, ws) && WorkspaceFieldsRead(d, ws) && ws.legacyActiveThreadId.None?
    requires GetDict(d, THREADS) == Some(items) && ThreadsFromJson(items) == Some(ws.threads)
    ensures WorkspaceFromJson(key, Record(d)) == Some(ws)
  {
  }

  const AddedNames := {PENDING_NEW_SESSION, THREADS}

  lemma AddedHideNothing(ws: WorkspaceInfo)
    ensures SameOutside(WorkspaceToJson(ws).fields, RequiredWorkspaceFields(ws), AddedNames)
  {
  }

  lemma RequiredText(ws: WorkspaceInfo, default: string)
    ensures var d := RequiredWorkspaceFields(ws);
      && GetStr(d, NAME) == Some(ws.name) && GetStr(d, PATH) == Some(ws.path)
      && GetStrOr(d, TOOL, default) == Some(if ws.tool == "" then default else ws.tool)
  {
  }

  lemma RequiredOptions(ws: WorkspaceInfo)
    ensures var d := RequiredWorkspaceFields(ws);
      && GetOptNum(d, TOPIC_ID) == Some(None) && GetOptStr(d, ACTIVE_THREAD_ID) == Some(None)
      && GetOptStr(d, DAEMON_WORKSPACE_ID) == Some(ws.daemonWorkspaceId)
      && GetOptNum(d, HEADER_MESSAGE_ID) == Some(ws.headerMessageId)
  {
  }

  lemma PendingWritten(ws: WorkspaceInfo)
    ensures GetDictOr(WorkspaceToJson(ws).fields, PENDING_NEW_SESSION) == Some(ws.pendingNewSession)
  {
  }

  lemma WriteWorkspace(key: string, ws: WorkspaceInfo)
    ensures var d, kept := WorkspaceToJson(ws).fields, KeptWorkspace(key, ws);
      NamingFieldsRead(key, d, kept) && WorkspaceFieldsRead(d, kept)
  {
    AddedHideNothing(ws);
    RequiredText(ws, InferTool(key));
    RequiredOptions(ws);
    PendingWritten(ws);
    WorkspaceReads(key, WorkspaceToJson(ws).fields, RequiredWorkspaceFields(ws), KeptWorkspace(key, ws));
  }

  lemma WorkspaceReads(key: string, d: Fields, r: Fields, kept: WorkspaceInfo)
    requires SameOutside(d, r, AddedNames) && NamingFieldsRead(key, r, kept)
    requires GetOptStr(r, ACTIVE_THREAD_ID) == Some(kept.legacyActiveThreadId)
    requires GetOptStr(r, DAEMON_WORKSPACE_ID) == Some(kept.daemonWorkspaceId)
    requires GetOptNum(r, HEADER_MESSAGE_ID) == Some(kept.headerMessageId)
    requires GetDictOr(d, PENDING_NEW_SESSION) == Some(kept.pendingNewSession)
    ensures NamingFieldsRead(key, d, kept) && WorkspaceFieldsRead(d, kept)
  {
  }

  lemma WriteThreads(ws: WorkspaceInfo)
    ensures GetDict(WorkspaceToJson(ws).fields, THREADS) == Some(ThreadItems(ws.threads))
  {
  }

  lemma WorkspaceRoundTrip(key: string, ws: WorkspaceInfo)
    ensures WorkspaceFromJson(key, WorkspaceToJson(ws)) == Some(KeptWorkspace(key, ws))
  {
    var items := ThreadItems(ws.threads);
    var kept := KeptWorkspace(key, ws);
    WriteWorkspace(key, ws);
    WriteThreads(ws);
    forall k <- kept.threads ensures ThreadFromJson(items[k]) == Some(kept.threads[k]) {
      ThreadRoundTrip(ws.threads[k]);
    }
    ReadThreads(items, kept.threads);
    ReadWorkspace(key, WorkspaceToJson(ws).fields, items, kept);
  }

  lemma ReadWorkspaces(items: Items, ws: map<string, WorkspaceInfo>)
    requires items.Keys == ws.Keys
    requires forall k <- ws :: WorkspaceFromJson(k, items[k]) == Some(ws[k])
    ensures WorkspacesFromJson(items) == Some(ws)
  {
    assert forall k <- items :: WorkspaceFromJson(k, items[k]).Some?;
    assert WorkspacesFromJson(items).value == ws;
  }

  lemma ReadStorage(d: Fields, items: Items, s: AppStorage)
    requires GetDict(d, WORKSPACES) == Some(items) && WorkspacesFromJson(items) == Some(s.workspaces)
    requires GetOptStr(d, ACTIVE_WORKSPACE) == Some(s.activeWorkspace)
    requires GLOBAL_TOPIC_IDS !in d && s.globalTopicIds == map[]
    ensures StorageFromJson(Record(d)) == Some(s)
  {
  }

  lemma StorageRoundTrip(s: AppStorage)
    ensures StorageFromJson(StorageToJson(s)) == Some(Kept(s))
  {
    var items: Items := map k | k in s.workspaces :: WorkspaceToJson(s.workspaces[k]);
    var kept := Kept(s).workspaces;
    forall k <- kept ensures WorkspaceFromJson(k, items[k]) == Some(kept[k]) {
      WorkspaceRoundTrip(k, s.workspaces[k]);
    }
    ReadWorkspaces(items, kept);
    ReadStorage(StorageToJson(s).fields, items, Kept(s));
  }

  predicate NamesItsTools(s: AppStorage) {
    forall k <- s.workspaces :: s.workspaces[k].tool != "" && ThreadsNameTheirSource(s.workspaces[k])
  }

  predicate ThreadsNameTheirSource(ws: WorkspaceInfo) {
    forall t <- ws.threads :: ws.threads[t].source != ""
  }

  predicate OnlyLegacyDiffers(a: AppStorage, b: AppStorage) {
    && a.activeWorkspace == b.activeWorkspace && a.workspaces.Keys == b.workspaces.Keys
    && forall k <- a.workspaces ::
         var v, w := a.workspaces[k], b.workspaces[k];
         && v.(topicId := None, legacyActiveThreadId := None, threads := map[])
            == w.(topicId := None, legacyActiveThreadId := None, threads := map[])
         && v.threads.Keys == w.threads.Keys
         && forall t <- v.threads :: v.threads[t].(topicId := None) == w.threads[t].(topicId := None)
  }

  lemma KeptDiffersOnlyInLegacy(s: AppStorage)
    requires NamesItsTools(s)
    ensures OnlyLegacyDiffers(s, Kept(s))
  {
  }

  // With sources and tools named, a load returns every field of what was saved, except
  // the legacy topic ids and thread id, which it returns empty.
  lemma NamedStorageSurvives(s: AppStorage)
    requires NamesItsTools(s)
    ensures var r := StorageFromJson(StorageToJson(s));
      && r.Some? && OnlyLegacyDiffers(s, r.value) && r.value.globalTopicIds == map[]
      && forall k <- r.value.workspaces :: r.value.workspaces[k].topicId.None?
           && forall t <- r.value.workspaces[k].threads :: r.value.workspaces[k].threads[t].topicId.None?
  {
    StorageRoundTrip(s);
    KeptDiffersOnlyInLegacy(s);
  }
}
