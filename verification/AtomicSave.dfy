/**
 Saving the state file as a sequence of effects, any of which may raise and after any of
 which the process or the power may go.
*/
module AtomicSave {
  import opened Prelude
  import opened Storage

  // What opening a path finds; Garbage is text that is no JSON object.
  datatype File = Absent | Garbage | Document(doc: Json)

  // A file and whether its content has been forced to disk.
  datatype Entry = Entry(file: File, synced: bool)

  // What a name refers to now, and what it referred to before, as far as the directory on
  // disk may still record that.
  datatype Slot = Slot(visible: Entry, earlier: set<Entry>)

  datatype Target = Main | Backup

  datatype Disk = Disk(main: Slot, bak: Slot, temp: Option<Entry>)

  datatype Loaded = Loaded(state: AppStorage) | Raised

  function Parse(f: File): Option<AppStorage> {
    if f.Document? then StorageFromJson(f.doc) else None
  }

  // load_storage
  function Load(main: File, bak: File): Loaded {
    if main.Absent? && bak.Absent? then Loaded(EmptyStorage)
    else match Parse(main)
      case Some(s) => Loaded(s)
      case None => (match Parse(bak) case Some(s) => Loaded(s) case None => Raised)
  }

  // ---- effects ----

  datatype Effect = CreateTemp | WriteTemp | SyncTemp | Replace | SyncDir

  function Rebound(slot: Slot, e: Entry): Slot {
    Slot(e, slot.earlier + {slot.visible})
  }

  function Put(d: Disk, target: Target, e: Entry): Disk {
    match target
    case Main => d.(main := Rebound(d.main, e))
    case Backup => d.(bak := Rebound(d.bak, e))
  }

  function Apply(d: Disk, target: Target, effect: Effect, doc: Json): Disk {
    match effect
    case CreateTemp => d.(temp := Some(Entry(Garbage, false)))
    case WriteTemp => d.(temp := Some(Entry(Document(doc), false)))
    case SyncTemp => if d.temp.Some? then d.(temp := Some(d.temp.value.(synced := true))) else d
    case Replace => if d.temp.Some? then Put(d, target, d.temp.value).(temp := None) else d
    case SyncDir => d.(main := d.main.(earlier := {}), bak := d.bak.(earlier := {}))
  }

  // The k-th effect of atomic_write_text, and of save_storage: the backup first.
  function EffectAt(k: nat): Effect
    requires k < 5
  {
    match k case 0 => CreateTemp case 1 => WriteTemp case 2 => SyncTemp case 3 => Replace case _ => SyncDir
  }

  function Next(d: Disk, k: nat, doc: Json): Disk
    requires k < 10
  {
    Apply(d, if k < 5 then Backup else Main, EffectAt(k % 5), doc)
  }

  function After(d: Disk, k: nat, doc: Json): Disk
    requires k <= 10
  {
    if k == 0 then d else Next(After(d, k - 1, doc), k - 1, doc)
  }

  // ---- crashes ----

  // A name may come back as it is now or as it was; content not forced to disk may come
  // back as anything.
  predicate EntrySurvives(e: Entry, f: File) {
    f == e.file || !e.synced
  }

  predicate SlotSurvives(slot: Slot, f: File) {
    EntrySurvives(slot.visible, f) || exists e <- slot.earlier :: EntrySurvives(e, f)
  }

  predicate Survives(d: Disk, main: File, bak: File) {
    SlotSurvives(d.main, main) && SlotSurvives(d.bak, bak)
  }

  function Settled(main: File, bak: File): Disk {
    var m, b := Entry(main, true), Entry(bak, true);
    Disk(Slot(m, {}), Slot(b, {}), None)
  }

  // ---- runs of saves, failures and crashes ----

  datatype Job = Job(state: AppStorage, done: nat)

  // `allowed` is the history a load is held to: the state last saved in full and those
  // whose save was begun after it.
  datatype World = World(disk: Disk, job: Option<Job>, allowed: set<Loaded>)

  datatype Event = Begin(s: AppStorage) | Proceed | Fail | Crash(main: File, bak: File)

  predicate Enabled(w: World, e: Event) {
    match e
    case Begin(_) => w.job.None?
    case Proceed => w.job.Some? && w.job.value.done < 10
    case Fail => w.job.Some?
    case Crash(main, bak) => Survives(w.disk, main, bak)
  }

  function Step(w: World, e: Event): World
    requires Enabled(w, e)
  {
    match e
    case Begin(s) => w.(job := Some(Job(s, 0)), allowed := w.allowed + {Loaded(Kept(s))})
    case Proceed =>
      var job := w.job.value;
      var disk := Next(w.disk, job.done, StorageToJson(job.state));
      if job.done < 9 then World(disk, Some(job.(done := job.done + 1)), w.allowed)
      else World(disk, None, {Loaded(Kept(job.state))})
    case Fail => World(w.disk.(temp := None), None, w.allowed)
    case Crash(main, bak) => World(Settled(main, bak), None, w.allowed)
  }

  predicate ValidRun(w: World, events: seq<Event>)
    decreases |events|
  {
    events == [] || (Enabled(w, events[0]) && ValidRun(Step(w, events[0]), events[1..]))
  }

  function RunFrom(w: World, events: seq<Event>): World
    requires ValidRun(w, events)
    decreases |events|
  {
    if events == [] then w else RunFrom(Step(w, events[0]), events[1..])
  }

  ghost predicate CrashSafe(w: World) {
    forall m, b | Survives(w.disk, m, b) :: Load(m, b) in w.allowed
  }

  predicate Forced(d: Disk) {
    && d.main.visible.synced && d.bak.visible.synced
    && (forall e <- d.main.earlier :: e.synced) && (forall e <- d.bak.earlier :: e.synced)
  }

  // The temporary file is as far as the job is, and the main name is replaced last.
  predicate JobSound(d: Disk, job: Job) {
    var e := Entry(Document(StorageToJson(job.state)), true);
    var k := job.done;
    && k < 10
    && (k % 5 == 2 ==> d.temp == Some(e.(synced := false)))
    && (k % 5 == 3 ==> d.temp == Some(e))
    && (k == 9 ==> d.main.visible == e)
  }

  ghost predicate Inv(w: World) {
    && Forced(w.disk) && CrashSafe(w)
    && (w.job.Some? ==> JobSound(w.disk, w.job.value) && Loaded(Kept(w.job.value.state)) in w.allowed)
  }

  lemma ReplaceKeeps(w: World, target: Target, s: AppStorage)
    requires Forced(w.disk) && CrashSafe(w) && Loaded(Kept(s)) in w.allowed
    ensures CrashSafe(w.(disk := Put(w.disk, target, Entry(Document(StorageToJson(s)), true))))
  {
    StorageRoundTrip(s);
    var d := Put(w.disk, target, Entry(Document(StorageToJson(s)), true));
    forall m, b | Survives(d, m, b) ensures Load(m, b) in w.allowed {
      var before := w.disk.bak.visible.file;
      if target == Backup && !SlotSurvives(w.disk.bak, b) && Parse(m).Some? {
        assert Survives(w.disk, m, before);
        assert Load(m, b) == Load(m, before);
      }
    }
  }

  lemma ProceedKeeps(w: World)
    requires Inv(w) && Enabled(w, Proceed)
    ensures Inv(Step(w, Proceed))
  {
    var s, k := w.job.value.state, w.job.value.done;
    if k % 5 == 3 {
      ReplaceKeeps(w, if k < 5 then Backup else Main, s);
    } else {
      var w' := Step(w, Proceed);
      StorageRoundTrip(s);
      forall m, b | Survives(w'.disk, m, b) ensures Load(m, b) in w'.allowed {
        assert Survives(w.disk, m, b);
      }
    }
  }

  lemma StepKeeps(w: World, e: Event)
    requires Inv(w) && Enabled(w, e)
    ensures Inv(Step(w, e))
  {
    match e
    case Proceed => ProceedKeeps(w);
    case Begin(_) =>
    case Fail =>
    case Crash(_, _) =>
  }

  lemma {:induction false} RunKeeps(w: World, events: seq<Event>)
    requires Inv(w) && ValidRun(w, events)
    ensures Inv(RunFrom(w, events))
    decreases |events|
  {
    if events != [] {
      StepKeeps(w, events[0]);
      RunKeeps(Step(w, events[0]), events[1..]);
    }
  }

  // Over every run of saves, raising effects and crashes, from any pair of files: a load
  // after a crash now gives the state last saved in full or one whose save began since.
  lemma LoadIsOldOrNew(main: File, bak: File, events: seq<Event>, m: File, b: File)
    requires var start := World(Settled(main, bak), None, {Load(main, bak)});
      ValidRun(start, events) && Survives(RunFrom(start, events).disk, m, b)
    ensures var start := World(Settled(main, bak), None, {Load(main, bak)});
      Load(m, b) in RunFrom(start, events).allowed
  {
    RunKeeps(World(Settled(main, bak), None, {Load(main, bak)}), events);
  }

  // ---- one save ----

  lemma {:induction false} SaveSoFar(main: File, bak: File, s: AppStorage, k: nat)
    requires k < 10
    ensures var disk := After(Settled(main, bak), k, StorageToJson(s));
      Inv(World(disk, Some(Job(s, k)), {Load(main, bak), Loaded(Kept(s))}))
  {
    if k > 0 {
      SaveSoFar(main, bak, s, k - 1);
      var disk := After(Settled(main, bak), k - 1, StorageToJson(s));
      var w := World(disk, Some(Job(s, k - 1)), {Load(main, bak), Loaded(Kept(s))});
      ProceedKeeps(w);
    }
  }

  lemma CompleteSaveLoads(main: File, bak: File, s: AppStorage, m: File, b: File)
    requires Survives(After(Settled(main, bak), 10, StorageToJson(s)), m, b)
    ensures Load(m, b) == Loaded(Kept(s))
  {
    SaveSoFar(main, bak, s, 9);
    var w := World(After(Settled(main, bak), 9, StorageToJson(s)), Some(Job(s, 9)), {Load(main, bak), Loaded(Kept(s))});
    ProceedKeeps(w);
    assert Step(w, Proceed).disk == After(Settled(main, bak), 10, StorageToJson(s));
  }

  // A crash after k effects of one save leaves the old state or the new one, whatever
  // files were there before, and the new one when the save was complete.
  lemma CrashedSaveLoads(main: File, bak: File, s: AppStorage, k: nat, m: File, b: File)
    requires k <= 10 && Survives(After(Settled(main, bak), k, StorageToJson(s)), m, b)
    ensures Load(m, b) == Load(main, bak) || Load(m, b) == Loaded(Kept(s))
    ensures k == 10 ==> Load(m, b) == Loaded(Kept(s))
  {
    if k < 10 {
      SaveSoFar(main, bak, s, k);
    } else {
      CompleteSaveLoads(main, bak, s, m, b);
    }
  }

  lemma {:induction false} MainIsReplacedLast(d: Disk, k: nat, doc: Json)
    requires k <= 10
    ensures After(d, k, doc).main.visible == if k < 9 then d.main.visible else Entry(Document(doc), true)
    ensures k == 7 ==> After(d, k, doc).temp == Some(Entry(Document(doc), false))
    ensures k == 8 ==> After(d, k, doc).temp == Some(Entry(Document(doc), true))
  {
    if k > 0 {
      MainIsReplacedLast(d, k - 1, doc);
    }
  }

  lemma {:induction false} BackupIsOldOrNew(d: Disk, k: nat, doc: Json)
    requires k <= 10
    ensures After(d, k, doc).bak.visible in {d.bak.visible, Entry(Document(doc), true)}
    ensures k == 2 ==> After(d, k, doc).temp == Some(Entry(Document(doc), false))
    ensures k == 3 ==> After(d, k, doc).temp == Some(Entry(Document(doc), true))
  {
    if k > 0 {
      BackupIsOldOrNew(d, k - 1, doc);
    }
  }

  // Short of a power loss, a save that stops after k effects leaves what was there or the
  // state it was given; the state once the main file is replaced, and what was there until
  // then if the main file was readable.
  lemma StoppedSaveIsNotWrittenOrWritten(d: Disk, s: AppStorage, k: nat)
    requires k <= 10
    ensures var d' := After(d, k, StorageToJson(s));
      var was, now := Load(d.main.visible.file, d.bak.visible.file), Load(d'.main.visible.file, d'.bak.visible.file);
      && (now == was || now == Loaded(Kept(s)))
      && (k >= 9 ==> now == Loaded(Kept(s)))
      && (k < 9 && Parse(d.main.visible.file).Some? ==> now == was)
  {
    MainIsReplacedLast(d, k, StorageToJson(s));
    BackupIsOldOrNew(d, k, StorageToJson(s));
    StorageRoundTrip(s);
  }

  // ---- one damaged file ----

  lemma {:induction false} BackupIsReplacedFirst(d: Disk, k: nat, doc: Json)
    requires k <= 10
    ensures k >= 4 ==> After(d, k, doc).bak.visible == Entry(Document(doc), true)
    ensures k == 10 ==> After(d, k, doc).bak.earlier == {} && After(d, k, doc).main.earlier == {}
    ensures k == 2 ==> After(d, k, doc).temp == Some(Entry(Document(doc), false))
    ensures k == 3 ==> After(d, k, doc).temp == Some(Entry(Document(doc), true))
    decreases k
  {
    if k > 0 {
      BackupIsReplacedFirst(d, k - 1, doc);
    }
  }

  // After a completed save one file is enough, whatever becomes of the other: a main file that
  // is gone, damaged or no state gives way to the backup, and a backup is not even read.
  lemma OneFileIsEnough(d: Disk, s: AppStorage, m: File, b: File, damaged: File)
    requires Survives(After(d, 10, StorageToJson(s)), m, b)
    ensures Parse(damaged).None? ==> Load(damaged, b) == Loaded(Kept(s))
    ensures Load(m, damaged) == Loaded(Kept(s))
  {
    MainIsReplacedLast(d, 10, StorageToJson(s));
    BackupIsReplacedFirst(d, 10, StorageToJson(s));
    StorageRoundTrip(s);
  }

  // Two files of which neither can be read are an error, and are not taken for no state; a
  // load without any file gives the empty state.
  lemma UnreadableRaisesExactly(m: File, b: File)
    ensures Load(m, b) == Raised <==> Parse(m).None? && Parse(b).None? && (!m.Absent? || !b.Absent?)
    ensures m.Absent? && b.Absent? ==> Load(m, b) == Loaded(EmptyStorage)
  {
  }

  /** The directory that holds the state file, its backup and a temporary file. */
  class DataDir {
    var main: Slot
    var bak: Slot
    var temp: Option<Entry>

    ghost function View(): Disk
      reads this
    {
      Disk(main, bak, temp)
    }

    // os.replace
    method ReplaceTarget(target: Target)
      requires temp.Some?
      modifies this
      ensures View() == Put(old(View()), target, old(temp.value)).(temp := None)
    {
      match target {
        case Main => main := Rebound(main, temp.value);
        case Backup => bak := Rebound(bak, temp.value);
      }
      temp := None;
    }

    // `failing` is the number of effects done before one raises; 5 when none does.
    method AtomicWriteText(target: Target, doc: Json, failing: nat) returns (ok: bool)
      requires temp.None?
      modifies this
      ensures ok == (failing >= 5) && temp.None?
      ensures View() == Written(old(View()), target, doc, if failing < 5 then failing else 5).(temp := None)
    {
      ghost var was := View();
      ok := false;
      if failing > 0 {
        temp := Some(Entry(Garbage, false));
        assert View() == Written(was, target, doc, 1);
        if failing > 1 {
          temp := Some(Entry(Document(doc), false));
          assert View() == Written(was, target, doc, 2);
        }
        if failing > 2 {
          temp := Some(temp.value.(synced := true));
          assert View() == Written(was, target, doc, 3);
        }
        if failing > 3 {
          ReplaceTarget(target);
          assert View() == Written(was, target, doc, 4);
        }
        if failing > 4 {
          main := main.(earlier := {});
          bak := bak.(earlier := {});
          ok := true;
        }
        temp := None;
      }
    }

    // Saving either completes, and every later load gives the state, or stops at its
    // failing-th effect, with the backup already replaced when that is past the fifth.
    method SaveStorage(s: AppStorage, failing: nat) returns (ok: bool)
      requires temp.None?
      modifies this
      ensures temp.None? && ok == (failing >= 10)
      ensures View() == After(old(View()), if failing < 10 then failing else 10, StorageToJson(s)).(temp := None)
    {
      ghost var was := View();
      var doc := StorageToJson(s);
      WrittenIsAfter(was, doc, failing);
      ok := AtomicWriteText(Backup, doc, failing);
      if ok {
        ok := AtomicWriteText(Main, doc, failing - 5);
      }
    }

    method LoadStorage() returns (r: Loaded)
      ensures r == Load(main.visible.file, bak.visible.file)
    {
      var m, b := main.visible.file, bak.visible.file;
      if m.Absent? && b.Absent? {
        return Loaded(EmptyStorage);
      }
      var parsed := Parse(m);
      if parsed.None? {
        if b.Absent? {
          return Raised;
        }
        parsed := Parse(b);
      }
      return if parsed.Some? then Loaded(parsed.value) else Raised;
    }
  }

  function Written(d: Disk, target: Target, doc: Json, k: nat): Disk
    requires k <= 5
  {
    if k == 0 then d else Apply(Written(d, target, doc, k - 1), target, EffectAt(k - 1), doc)
  }

  // The ten effects of a save are one atomic write after the other.
  lemma WrittenIsAfter(d: Disk, doc: Json, k: nat)
    ensures k <= 5 ==> After(d, k, doc) == Written(d, Backup, doc, k)
    ensures 5 <= k <= 10 ==> After(d, k, doc) == Written(Written(d, Backup, doc, 5), Main, doc, k - 5)
    ensures k > 10 ==> After(d, 10, doc) == Written(Written(d, Backup, doc, 5), Main, doc, 5)
  {
    if 0 < k <= 10 {
      WrittenIsAfter(d, doc, k - 1);
    } else if k > 10 {
      WrittenIsAfter(d, doc, 10);
    }
  }
}
