/**
 The spool's files while other processes change them: what a capture, a verification and a removal
 come to for every schedule of changes, and what late changes do.
 */
module SpoolFiles {
  import opened Options
  import opened SpoolSelection
  import opened SpoolArchive

  datatype File = File(mtime: nat, safe: bool, data: seq<nat>)

  /** `held` is the file that is kept open; its number is not given to another file meanwhile. */
  datatype Files = Files(names: map<nat, Id>, store: map<Id, File>, held: Option<Id>)

  datatype Event = Put(name: nat, id: Id, file: File) | Write(id: Id, file: File) | Drop(name: nat)

  function Happen(f: Files, e: Event): Files {
    match e
    case Put(name, id, file) =>
      if f.held == Some(id) then f else f.(names := f.names[name := id], store := f.store[id := file])
    case Write(id, file) => if id in f.store then f.(store := f.store[id := file]) else f
    case Drop(name) => f.(names := f.names - {name})
  }

  function Run(f: Files, events: seq<Event>): Files
    decreases |events|
  {
    if events == [] then f else Happen(Run(f, events[..|events| - 1]), events[|events| - 1])
  }

  predicate Touches(e: Event, name: nat, id: Id) {
    match e
    case Put(n, i, _) => n == name || i == id
    case Write(i, _) => i == id
    case Drop(n) => n == name
  }

  predicate Untouched(events: seq<Event>, name: nat, id: Id) {
    forall e <- events :: !Touches(e, name, id)
  }

  ghost predicate Bound(f: Files) {
    (forall n <- f.names :: f.names[n] in f.store) && (f.held.Some? ==> f.held.value in f.store)
  }

  lemma {:induction false} RunKeepsBound(f: Files, events: seq<Event>)
    requires Bound(f)
    ensures Bound(Run(f, events)) && Run(f, events).held == f.held
    ensures forall id <- f.store :: id in Run(f, events).store
    decreases |events|
  {
    if events != [] {
      RunKeepsBound(f, events[..|events| - 1]);
    }
  }

  lemma {:induction false} UntouchedStays(f: Files, events: seq<Event>, name: nat, id: Id)
    requires Untouched(events, name, id) && id in f.store
    ensures var after := Run(f, events);
            && id in after.store && after.store[id] == f.store[id]
            && (name in after.names <==> name in f.names) && (name in f.names ==> after.names[name] == f.names[name])
    decreases |events|
  {
    if events != [] {
      var before, e := events[..|events| - 1], events[|events| - 1];
      UntouchedStays(f, before, name, id);
      assert !Touches(e, name, id);
    }
  }

  // ----- Snapshots, entries and files

  function IdOf(s: Snapshot): Id {
    Id(s.device, s.inode)
  }

  function SnapshotOf(e: Entry): Snapshot {
    Snapshot(e.name, e.id.device, e.id.inode, e.bytes, e.mtime)
  }

  /** The named file is the one of the snapshot. */
  predicate SameFile(f: Files, s: Snapshot) {
    && s.name in f.names && f.names[s.name] == IdOf(s) && IdOf(s) in f.store
    && var file := f.store[IdOf(s)]; |file.data| == s.size && file.mtime == s.mtime
  }

  predicate Unchanged(f: Files, s: Snapshot) {
    SameFile(f, s) && f.store[IdOf(s)].safe
  }

  predicate Matches(file: File, entry: Entry) {
    |file.data| == entry.bytes && file.mtime == entry.mtime && Sha256(file.data) == entry.sha
  }

  predicate Intact(f: Files, entry: Entry) {
    Unchanged(f, SnapshotOf(entry)) && Matches(f.store[entry.id], entry)
  }

  // ----- What the steps come to

  /** Batch `k` of a schedule; nothing happens after its end. */
  function Nth(schedule: seq<seq<Event>>, k: nat): seq<Event> {
    if k < |schedule| then schedule[k] else []
  }

  function After(schedule: seq<seq<Event>>, k: nat): seq<seq<Event>> {
    if k <= |schedule| then schedule[k..] else []
  }

  lemma AfterNth(schedule: seq<seq<Event>>, k: nat, j: nat)
    ensures Nth(After(schedule, k), j) == Nth(schedule, k + j)
    ensures After(After(schedule, k), j) == After(schedule, k + j)
  {
  }

  /** The read of an open file, and the second look at it. */
  predicate ReadOk(f: Files, s: Snapshot, schedule: seq<seq<Event>>) {
    && var read := Run(f, Nth(schedule, 0));
    && IdOf(s) in read.store && |read.store[IdOf(s)].data| == s.size
    && var after := Run(read, Nth(schedule, 1));
    && IdOf(s) in after.store && |after.store[IdOf(s)].data| == s.size && after.store[IdOf(s)].mtime == s.mtime
  }

  function Keeping(f: Files, s: Snapshot): Files {
    f.(held := Some(IdOf(s)))
  }

  predicate CaptureOk(f: Files, s: Snapshot, schedule: seq<seq<Event>>) {
    var found := Run(f, Nth(schedule, 0));
    Unchanged(found, s) && ReadOk(Keeping(found, s), s, After(schedule, 1))
  }

  function CaptureData(f: Files, s: Snapshot, schedule: seq<seq<Event>>): seq<nat>
    requires CaptureOk(f, s, schedule)
  {
    Run(Keeping(Run(f, Nth(schedule, 0)), s), Nth(After(schedule, 1), 0)).store[IdOf(s)].data
  }

  function CaptureFiles(f: Files, s: Snapshot, schedule: seq<seq<Event>>): Files {
    var read := Run(Keeping(Run(f, Nth(schedule, 0)), s), Nth(After(schedule, 1), 0));
    Run(read, Nth(After(schedule, 1), 1)).(held := None)
  }

  predicate VerifyOk(f: Files, e: Entry, schedule: seq<seq<Event>>) {
    var seen := Run(f, Nth(schedule, 0));
    && SameFile(seen, SnapshotOf(e)) && CaptureOk(seen, SnapshotOf(e), After(schedule, 1))
    && Sha256(CaptureData(seen, SnapshotOf(e), After(schedule, 1))) == e.sha
  }

  function VerifyFiles(f: Files, e: Entry, schedule: seq<seq<Event>>): Files {
    CaptureFiles(Run(f, Nth(schedule, 0)), SnapshotOf(e), After(schedule, 1))
  }

  /** The spool when the unlink comes: after the verification, the last look and what follows it. */
  function PruneFiles(f: Files, e: Entry, schedule: seq<seq<Event>>): Files {
    Run(Run(VerifyFiles(f, e, schedule), Nth(schedule, 4)), Nth(schedule, 5))
  }

  predicate PruneOk(f: Files, e: Entry, schedule: seq<seq<Event>>) {
    && VerifyOk(f, e, schedule)
    && var seen := Run(VerifyFiles(f, e, schedule), Nth(schedule, 4));
    && e.name in seen.names && seen.names[e.name] == e.id
    && var last := PruneFiles(f, e, schedule);
    && e.name in last.names && last.names[e.name] in last.store
  }

  function RemovedFile(f: Files, e: Entry, schedule: seq<seq<Event>>): File
    requires PruneOk(f, e, schedule)
  {
    var last := PruneFiles(f, e, schedule);
    last.store[last.names[e.name]]
  }

  // ----- Late changes

  /** Six batches with one event in the `k`-th. */
  function OneEvent(k: nat, e: Event): seq<seq<Event>>
    requires k < 6
  {
    [[], [], [], [], [], []][k := [e]]
  }

  /** The event puts a file with the entry's bytes, size and time in place. */
  predicate Restores(e: Event, entry: Entry) {
    (e.Put? || e.Write?) && Matches(e.file, entry)
  }

  lemma RunOne(f: Files, e: Event)
    ensures Run(f, [e]) == Happen(f, e)
  {
    assert [e][..0] == [];
  }

  /** Whether a removal with one late event goes through. */
  predicate SlipsThrough(k: nat, e: Event, entry: Entry) {
    match e
    case Drop(name) => name != entry.name
    case Put(name, id, _) => k == 5 || name != entry.name || id == entry.id
    case Write(id, file) => k != 3 || id != entry.id || (|file.data| == entry.bytes && file.mtime == entry.mtime)
  }

  lemma QuietVerify(f: Files, entry: Entry, schedule: seq<seq<Event>>)
    requires f.held.None? && Intact(f, entry) && Nth(schedule, 0) == Nth(schedule, 1) == Nth(schedule, 2) == []
    ensures var read := Keeping(f, SnapshotOf(entry));
            var after := Run(read, Nth(schedule, 3));
            && (VerifyOk(f, entry, schedule) <==>
                  entry.id in after.store && |after.store[entry.id].data| == entry.bytes
                  && after.store[entry.id].mtime == entry.mtime)
            && VerifyFiles(f, entry, schedule) == after.(held := None)
  {
    AfterNth(schedule, 1, 0);
    AfterNth(schedule, 1, 1);
    AfterNth(schedule, 2, 0);
    AfterNth(schedule, 2, 1);
  }

  /** For an intact entry and one event after its content was read: the removal goes through unless
      the event takes the name away, gives the name to another file before the last look, or changes
      the size or time before the second look; and the file that is then removed matches the entry if
      and only if the event does not touch it or puts the same bytes, size and time back. */
  lemma LateEvent(f: Files, entry: Entry, k: nat, e: Event)
    requires Bound(f) && f.held.None? && Intact(f, entry) && 3 <= k < 6
    requires k == 3 && e.Put? ==> e.id != entry.id
    ensures PruneOk(f, entry, OneEvent(k, e)) <==> SlipsThrough(k, e, entry)
    ensures PruneOk(f, entry, OneEvent(k, e)) ==>
              (Matches(RemovedFile(f, entry, OneEvent(k, e)), entry) <==>
                 !Touches(e, entry.name, entry.id) || Restores(e, entry))
  {
    var schedule := OneEvent(k, e);
    QuietVerify(f, entry, schedule);
    RunOne(Keeping(f, SnapshotOf(entry)), e);
    RunOne(f, e);
    assert Keeping(f, SnapshotOf(entry)).(held := None) == f;
  }
}
