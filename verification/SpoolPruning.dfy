/**
 Archiving and pruning, while other processes change the spool between any two steps: what each
 command does to the spool, and that spool and archives together lose no content.
 */
module SpoolPruning {
  import opened Options
  import opened SpoolSelection
  import opened SpoolArchive
  import opened SpoolFiles

  /** A removal: the entry it was for, the file that went, and whether nothing touched that name or
      file since its content was read. */
  datatype Removal = Removal(entry: Entry, file: File, quiet: bool)

  /** What happens to the spool: a batch of other processes' changes, a file that is kept open or no
      longer, the read of a file, or a removal. */
  datatype Effect = Others(events: seq<Event>) | Hold(held: Option<Id>) | Read(id: Id, data: seq<nat>) | Unlinked(removal: Removal)

  function Step(f: Files, x: Effect): Files {
    match x
    case Others(events) => Run(f, events)
    case Hold(held) => f.(held := held)
    case Read(_, _) => f
    case Unlinked(r) => f.(names := f.names - {r.entry.name})
  }

  function Replay(f: Files, trace: seq<Effect>): Files {
    if trace == [] then f else Step(Replay(f, trace[..|trace| - 1]), trace[|trace| - 1])
  }

  /** The batches of other processes, in order. */
  function Batches(trace: seq<Effect>): seq<seq<Event>> {
    if trace == [] then []
    else Batches(trace[..|trace| - 1]) + if trace[|trace| - 1].Others? then [trace[|trace| - 1].events] else []
  }

  function Removals(trace: seq<Effect>): seq<Removal> {
    if trace == [] then []
    else Removals(trace[..|trace| - 1]) + if trace[|trace| - 1].Unlinked? then [trace[|trace| - 1].removal] else []
  }

  /** The last file that was read, and the changes and the number of batches since then. */
  function LastRead(trace: seq<Effect>): Option<Effect> {
    if trace == [] then None
    else if trace[|trace| - 1].Read? then Some(trace[|trace| - 1])
    else LastRead(trace[..|trace| - 1])
  }

  function EventsSince(trace: seq<Effect>): seq<Event> {
    if trace == [] || trace[|trace| - 1].Read? then []
    else EventsSince(trace[..|trace| - 1]) + if trace[|trace| - 1].Others? then trace[|trace| - 1].events else []
  }

  function BatchesSince(trace: seq<Effect>): nat {
    if trace == [] || trace[|trace| - 1].Read? then 0
    else BatchesSince(trace[..|trace| - 1]) + if trace[|trace| - 1].Others? then 1 else 0
  }

  /** The last file that was read is the entry's, and what was read has its size and digest. */
  predicate Verified(trace: seq<Effect>, entry: Entry) {
    match LastRead(trace)
    case Some(Read(id, data)) => id == entry.id && |data| == entry.bytes && Sha256(data) == entry.sha
    case _ => false
  }

  const WINDOW: nat := 3   // batches between the read of a file and its removal

  /** A read returns the file's content. A removal comes right after a read that verified its entry,
      and tells the truth about the file that went and about what touched it in between. */
  predicate HonestStep(f: Files, past: seq<Effect>, x: Effect) {
    match x
    case Read(id, data) => id in f.store && f.store[id].data == data
    case Unlinked(r) =>
      && r.entry.name in f.names && f.names[r.entry.name] in f.store && f.store[f.names[r.entry.name]] == r.file
      && Verified(past, r.entry) && BatchesSince(past) <= WINDOW
      && (r.quiet <==> Untouched(EventsSince(past), r.entry.name, r.entry.id))
    case _ => true
  }

  predicate Honest(f: Files, trace: seq<Effect>) {
    trace == [] || (&& Honest(f, trace[..|trace| - 1])
                    && HonestStep(Replay(f, trace[..|trace| - 1]), trace[..|trace| - 1], trace[|trace| - 1]))
  }

  lemma OneMore(f: Files, trace: seq<Effect>, x: Effect)
    ensures Replay(f, trace + [x]) == Step(Replay(f, trace), x)
    ensures Batches(trace + [x]) == Batches(trace) + if x.Others? then [x.events] else []
    ensures Removals(trace + [x]) == Removals(trace) + if x.Unlinked? then [x.removal] else []
    ensures Honest(f, trace + [x]) <==> Honest(f, trace) && HonestStep(Replay(f, trace), trace, x)
  {
    assert (trace + [x])[..|trace|] == trace;
  }

  lemma OneMoreSince(trace: seq<Effect>, x: Effect)
    ensures LastRead(trace + [x]) == if x.Read? then Some(x) else LastRead(trace)
    ensures EventsSince(trace + [x]) == if x.Read? then [] else EventsSince(trace) + if x.Others? then x.events else []
    ensures BatchesSince(trace + [x]) == if x.Read? then 0 else BatchesSince(trace) + if x.Others? then 1 else 0
  {
    assert (trace + [x])[..|trace|] == trace;
  }

  /** No file was read in between, and at most `k` batches went by. */
  ghost predicate Waited(before: seq<Effect>, after: seq<Effect>, k: nat) {
    LastRead(after) == LastRead(before) && BatchesSince(after) <= BatchesSince(before) + k
  }

  /** One batch of the script is over. */
  lemma BatchIsOver(f: Files, trace: seq<Effect>, schedule: seq<seq<Event>>, script: seq<seq<Event>>)
    requires schedule != [] && Honest(f, trace) && Batches(trace) + schedule == script
    ensures var longer := trace + [Others(schedule[0])];
            && Honest(f, longer) && Replay(f, longer) == Run(Replay(f, trace), schedule[0])
            && Batches(longer) + schedule[1..] == script && Removals(longer) == Removals(trace)
  {
    OneMore(f, trace, Others(schedule[0]));
    assert [schedule[0]] + schedule[1..] == schedule;
    assert (Batches(trace) + [schedule[0]]) + schedule[1..] == Batches(trace) + ([schedule[0]] + schedule[1..]);
  }

  // ----- Conservation

  predicate InSpool(f: Files, content: seq<nat>) {
    exists n <- f.names :: f.names[n] in f.store && f.store[f.names[n]].data == content
  }

  /** Some batch of other processes took the content's last copy out of the spool. */
  ghost predicate TakenByOthers(f: Files, trace: seq<Effect>, content: seq<nat>) {
    exists i :: 0 <= i < |trace| && trace[i].Others?
                && InSpool(Replay(f, trace[..i]), content) && !InSpool(Replay(f, trace[..i + 1]), content)
  }

  /** Some removal that was not quiet took it. */
  ghost predicate RemovedUnseen(trace: seq<Effect>, content: seq<nat>) {
    exists r <- Removals(trace) :: !r.quiet && r.file.data == content
  }

  ghost predicate InArchive(archives: seq<Archive>, content: seq<nat>) {
    exists a <- archives :: exists m <- a.members :: m.data == content
  }

  /** Every quiet removal is of content that some archive holds. */
  ghost predicate Backed(removals: seq<Removal>, archives: seq<Archive>) {
    forall r <- removals :: r.quiet ==> InArchive(archives, r.file.data)
  }

  lemma TakenStaysTaken(f: Files, trace: seq<Effect>, x: Effect, content: seq<nat>)
    requires TakenByOthers(f, trace, content)
    ensures TakenByOthers(f, trace + [x], content)
  {
    var i :| 0 <= i < |trace| && trace[i].Others?
             && InSpool(Replay(f, trace[..i]), content) && !InSpool(Replay(f, trace[..i + 1]), content);
    var longer := trace + [x];
    assert longer[..i] == trace[..i] && longer[..i + 1] == trace[..i + 1] && longer[i] == trace[i];
  }

  /** A removal takes no other content than that of the file that goes. */
  lemma UnlinkTakesItsFile(f: Files, r: Removal, content: seq<nat>)
    requires r.entry.name in f.names && f.names[r.entry.name] in f.store && f.store[f.names[r.entry.name]] == r.file
    requires InSpool(f, content) && r.file.data != content
    ensures InSpool(Step(f, Unlinked(r)), content)
  {
    var n :| n in f.names && f.names[n] in f.store && f.store[f.names[n]].data == content;
    assert n in Step(f, Unlinked(r)).names;
  }

  /** Over every history, a content that was in the spool is in the spool or in an archive, unless
      other processes took it or changed the file between its last read and its removal. */
  lemma {:induction false} NothingIsLost(f: Files, trace: seq<Effect>, archives: seq<Archive>, content: seq<nat>)
    requires Honest(f, trace) && InSpool(f, content) && Backed(Removals(trace), archives)
    ensures InSpool(Replay(f, trace), content) || InArchive(archives, content)
            || TakenByOthers(f, trace, content) || RemovedUnseen(trace, content)
  {
    if trace != [] {
      var front, x := trace[..|trace| - 1], trace[|trace| - 1];
      assert trace == front + [x];
      OneMore(f, front, x);
      NothingIsLost(f, front, archives, content);
      if TakenByOthers(f, front, content) {
        TakenStaysTaken(f, front, x, content);
      } else if InSpool(Replay(f, front), content) {
        match x
        case Others(_) =>
          assert trace[..|front|] == front && trace[..|front| + 1] == trace;
        case Hold(_) =>
          var before := Replay(f, front);
          var n :| n in before.names && before.names[n] in before.store && before.store[before.names[n]].data == content;
          assert n in Replay(f, trace).names;
        case Read(_, _) =>
        case Unlinked(r) =>
          if r.file.data != content {
            UnlinkTakesItsFile(Replay(f, front), r, content);
          } else {
            assert r in Removals(trace);
          }
      }
    }
  }

  // ----- Undisturbed steps

  lemma CalmSteps(f: Files, s: Snapshot, e: Entry)
    requires Bound(f) && f.held.None?
    ensures CaptureOk(f, s, []) <==> Unchanged(f, s)
    ensures CaptureOk(f, s, []) ==> CaptureFiles(f, s, []) == f && CaptureData(f, s, []) == f.store[IdOf(s)].data
    ensures VerifyOk(f, e, []) <==> Intact(f, e)
    ensures VerifyOk(f, e, []) ==> VerifyFiles(f, e, []) == f
  {
    assert Keeping(f, s).(held := None) == f && Keeping(f, SnapshotOf(e)).(held := None) == f;
    assert After([], 1) == [];
  }

  lemma CalmPrune(f: Files, e: Entry)
    requires Bound(f) && f.held.None?
    ensures PruneOk(f, e, []) <==> Intact(f, e)
    ensures PruneOk(f, e, []) ==> PruneFiles(f, e, []) == f && RemovedFile(f, e, []) == f.store[e.id]
  {
    CalmSteps(f, SnapshotOf(e), e);
  }

  /** A stretch of the history without removals. */
  ghost predicate Silent(before: seq<Effect>, after: seq<Effect>) {
    before <= after && Removals(after) == Removals(before)
  }

  datatype Outcome = Pruned(count: nat, bytes: nat) | DryRun(planned: nat) | NothingToPrune | Refused | Failed

  class Spool {
    ghost const start: Files
    ghost const script: seq<seq<Event>>   // what other processes do, from the start on
    var files: Files
    var schedule: seq<seq<Event>>         // what of it is still to come
    ghost var recent: seq<Event>          // what happened since a file was last read
    ghost var trace: seq<Effect>          // everything that happened

    /** The files are what the history makes of the start, and the history's changes by others are
        exactly the part of the script that is over. */
    ghost predicate Valid()
      reads this
    {
      && Bound(files) && files == Replay(start, trace) && Honest(start, trace) && Batches(trace) + schedule == script
      && recent == EventsSince(trace)
    }

    constructor (files: Files, schedule: seq<seq<Event>>)
      requires Bound(files) && files.held.None?
      ensures Valid() && this.files == files && this.schedule == schedule && trace == []
    {
      this.files, this.schedule, recent, trace := files, schedule, [], [];
      start, script := files, schedule;
    }

    method Meanwhile()
      requires Valid()
      modifies this`files, this`schedule, this`recent, this`trace
      ensures Valid() && Silent(old(trace), trace) && Waited(old(trace), trace, 1)
      ensures files == Run(old(files), Nth(old(schedule), 0)) && schedule == After(old(schedule), 1)
      ensures recent == old(recent) + Nth(old(schedule), 0)
      ensures files.held == old(files.held) && forall id <- old(files.store) :: id in files.store
    {
      RunKeepsBound(files, Nth(schedule, 0));
      if schedule != [] {
        BatchIsOver(start, trace, schedule, script);
        OneMoreSince(trace, Others(schedule[0]));
        trace := trace + [Others(schedule[0])];
        files, recent, schedule := Run(files, schedule[0]), recent + schedule[0], schedule[1..];
      } else {
        assert recent + [] == recent;
      }
    }

    /** A file is kept open, or no longer. */
    method KeepOpen(held: Option<Id>)
      requires Valid() && (held.Some? ==> held.value in files.store)
      modifies this`files, this`trace
      ensures Valid() && Silent(old(trace), trace) && Waited(old(trace), trace, 0) && files == old(files).(held := held)
      ensures EventsSince(trace) == EventsSince(old(trace))
    {
      OneMore(start, trace, Hold(held));
      OneMoreSince(trace, Hold(held));
      trace := trace + [Hold(held)];
      files := files.(held := held);
    }

    /** The read of a file. */
    method ReadFile(id: Id) returns (data: seq<nat>)
      requires Valid() && id in files.store
      modifies this`recent, this`trace
      ensures Valid() && Silent(old(trace), trace) && data == files.store[id].data && recent == []
      ensures LastRead(trace) == Some(Read(id, data)) && BatchesSince(trace) == 0
    {
      data := files.store[id].data;
      OneMore(start, trace, Read(id, data));
      OneMoreSince(trace, Read(id, data));
      recent, trace := [], trace + [Read(id, data)];
    }

    /** `unlink`: the one step that removes a name. */
    method Unlink(ghost entry: Entry, name: nat) returns (ghost removal: Removal)
      requires Valid() && name == entry.name && name in files.names
      requires Verified(trace, entry) && BatchesSince(trace) <= WINDOW
      modifies this`files, this`trace
      ensures Valid() && files == old(files).(names := old(files.names) - {name})
      ensures removal == Removal(entry, old(files).store[old(files).names[name]], Untouched(recent, entry.name, entry.id))
      ensures trace == old(trace) + [Unlinked(removal)] && Removals(trace) == Removals(old(trace)) + [removal]
    {
      removal := Removal(entry, files.store[files.names[name]], Untouched(recent, entry.name, entry.id));
      OneMore(start, trace, Unlinked(removal));
      OneMoreSince(trace, Unlinked(removal));
      trace := trace + [Unlinked(removal)];
      files := files.(names := files.names - {name});
    }

    /** The copy of the open file, compared with the snapshot once it is read. */
    method ReadHeld(s: Snapshot) returns (captured: Option<Entry>, data: seq<nat>)
      requires Valid() && files.held == Some(IdOf(s))
      modifies this`files, this`schedule, this`recent, this`trace
      ensures Valid() && Silent(old(trace), trace) && files.held == Some(IdOf(s))
      ensures var read := Run(old(files), Nth(old(schedule), 0));
              && IdOf(s) in read.store && data == read.store[IdOf(s)].data
              && files == Run(read, Nth(old(schedule), 1)) && schedule == After(old(schedule), 2)
      ensures captured == if ReadOk(old(files), s, old(schedule))
                          then Some(Entry(s.name, |data|, s.mtime, IdOf(s), Sha256(data))) else None
      ensures recent == Nth(old(schedule), 1) && LastRead(trace) == Some(Read(IdOf(s), data)) && BatchesSince(trace) <= 1
      ensures IdOf(s) in files.store && (Untouched(recent, s.name, IdOf(s)) ==> files.store[IdOf(s)].data == data)
    {
      Meanwhile();
      var id := IdOf(s);
      data := ReadFile(id);
      ghost var read, rest := files, schedule;
      AfterNth(old(schedule), 1, 0);
      AfterNth(old(schedule), 1, 1);
      Meanwhile();
      if Untouched(recent, s.name, id) {
        UntouchedStays(read, Nth(rest, 0), s.name, id);
      }
      var after := files.store[id];
      if |data| != s.size || |after.data| != s.size || after.mtime != s.mtime {
        return None, data;
      }
      captured := Some(Entry(s.name, |data|, s.mtime, id, Sha256(data)));
    }

    /** `_capture_entry`: opens the file by name, compares it with the snapshot before and after
        reading it, and digests what it read. */
    method CaptureEntry(s: Snapshot) returns (captured: Option<Entry>, data: seq<nat>)
      requires Valid() && files.held.None?
      modifies this`files, this`schedule, this`recent, this`trace
      ensures Valid() && Silent(old(trace), trace) && files.held.None?
      ensures captured.Some? <==> CaptureOk(old(files), s, old(schedule))
      ensures captured.Some? ==>
                && data == CaptureData(old(files), s, old(schedule)) && |data| == s.size
                && captured.value == Entry(s.name, |data|, s.mtime, IdOf(s), Sha256(data))
                && files == CaptureFiles(old(files), s, old(schedule)) && schedule == After(old(schedule), 3)
                && IdOf(s) in files.store && files.store[IdOf(s)].mtime == s.mtime && recent == Nth(old(schedule), 2)
                && (Untouched(recent, s.name, IdOf(s)) ==> files.store[IdOf(s)].data == data)
                && LastRead(trace) == Some(Read(IdOf(s), data)) && BatchesSince(trace) <= 1
      ensures old(schedule) == [] ==> schedule == [] && files == old(files)
    {
      Meanwhile();
      if !Unchanged(files, s) {
        return None, [];
      }
      ghost var found := files;
      AfterNth(old(schedule), 1, 1);
      AfterNth(old(schedule), 1, 2);
      KeepOpen(Some(IdOf(s)));
      captured, data := ReadHeld(s);
      KeepOpen(None);
      if old(schedule) == [] {
        assert found.(held := Some(IdOf(s))).(held := None) == found;
      }
    }

    /** `_verify_source_entry` */
    method VerifySource(entry: Entry) returns (ok: bool)
      requires Valid() && files.held.None?
      modifies this`files, this`schedule, this`recent, this`trace
      ensures Valid() && Silent(old(trace), trace) && files.held.None?
      ensures ok <==> VerifyOk(old(files), entry, old(schedule))
      ensures ok ==>
                && files == VerifyFiles(old(files), entry, old(schedule)) && schedule == After(old(schedule), 4)
                && recent == Nth(old(schedule), 3) && entry.id in files.store
                && (Untouched(recent, entry.name, entry.id) ==> Matches(files.store[entry.id], entry))
                && Verified(trace, entry) && BatchesSince(trace) <= 1
      ensures old(schedule) == [] ==> schedule == [] && files == old(files)
    {
      Meanwhile();
      var s := SnapshotOf(entry);
      AfterNth(old(schedule), 1, 2);
      AfterNth(old(schedule), 1, 3);
      if !SameFile(files, s) {
        return false;
      }
      var captured, data := CaptureEntry(s);
      ok := captured.Some? && captured.value.sha == entry.sha;
    }

    /** The last look at a verified entry's number and the unlink. */
    method RemoveVerified(entry: Entry) returns (ok: bool)
      requires Valid() && files.held.None? && Verified(trace, entry) && BatchesSince(trace) <= 1
      requires entry.id in files.store && (Untouched(recent, entry.name, entry.id) ==> Matches(files.store[entry.id], entry))
      modifies this`files, this`schedule, this`recent, this`trace
      ensures Valid() && files.held.None? && old(trace) <= trace
      ensures var seen := Run(old(files), Nth(old(schedule), 0));
              var last := Run(seen, Nth(old(schedule), 1));
              && (ok <==> entry.name in seen.names && seen.names[entry.name] == entry.id && entry.name in last.names)
              && (!ok ==> Removals(trace) == Removals(old(trace)))
              && (ok ==> var quiet := Untouched(old(recent) + Nth(old(schedule), 0) + Nth(old(schedule), 1), entry.name, entry.id);
                         && last.names[entry.name] in last.store
                         && var r := Removal(entry, last.store[last.names[entry.name]], quiet);
                         && Removals(trace) == Removals(old(trace)) + [r] && (quiet ==> Matches(r.file, entry))
                         && files == last.(names := last.names - {entry.name}) && schedule == After(old(schedule), 2))
      ensures old(schedule) == [] ==> schedule == [] && (!ok ==> files == old(files))
    {
      ghost var verified, rest := files, schedule;
      AfterNth(rest, 1, 0);
      AfterNth(rest, 1, 1);
      Meanwhile();
      ghost var seen := files;
      if entry.name !in files.names || files.names[entry.name] != entry.id {
        return false;
      }
      Meanwhile();
      if entry.name !in files.names {
        return false;
      }
      if Untouched(recent, entry.name, entry.id) {
        UntouchedStays(verified, Nth(rest, 0), entry.name, entry.id);
        UntouchedStays(seen, Nth(rest, 1), entry.name, entry.id);
      }
      ghost var _ := Unlink(entry, entry.name);
      ok := true;
    }

    /** The removal of one entry: verify it again, look once more at its number, unlink. */
    method PruneEntry(entry: Entry) returns (ok: bool)
      requires Valid() && files.held.None?
      modifies this`files, this`schedule, this`recent, this`trace
      ensures Valid() && files.held.None? && old(trace) <= trace
      ensures ok <==> PruneOk(old(files), entry, old(schedule))
      ensures !ok ==> Removals(trace) == Removals(old(trace))
      ensures ok ==> var quiet := Untouched(Nth(old(schedule), 3) + Nth(old(schedule), 4) + Nth(old(schedule), 5), entry.name, entry.id);
                     var r := Removal(entry, RemovedFile(old(files), entry, old(schedule)), quiet);
                     Removals(trace) == Removals(old(trace)) + [r] && (quiet ==> Matches(r.file, entry))
      ensures ok ==> var last := PruneFiles(old(files), entry, old(schedule));
                     files == last.(names := last.names - {entry.name}) && schedule == After(old(schedule), 6)
      ensures old(schedule) == [] ==> schedule == [] && (!ok ==> files == old(files))
    {
      AfterNth(old(schedule), 4, 0);
      AfterNth(old(schedule), 4, 1);
      AfterNth(old(schedule), 4, 2);
      ok := VerifySource(entry);
      if ok {
        RunKeepsBound(files, Nth(schedule, 0));
        RunKeepsBound(Run(files, Nth(schedule, 0)), Nth(schedule, 1));
        ok := RemoveVerified(entry);
      }
    }

    /** One capture of an archive. */
    method Copy(s: Snapshot) returns (captured: Option<Entry>, data: seq<nat>)
      requires Valid() && files.held.None?
      modifies this`files, this`schedule, this`recent, this`trace
      ensures Valid() && Silent(old(trace), trace) && files.held.None?
      ensures captured.Some? ==> captured.value == Entry(s.name, |data|, s.mtime, IdOf(s), Sha256(data)) && |data| == s.size
      ensures old(schedule) == [] ==>
                && schedule == [] && files == old(files) && (captured.Some? <==> Unchanged(files, s))
                && (captured.Some? ==> Intact(files, captured.value))
    {
      CalmSteps(files, s, Entry(0, 0, 0, Id(0, 0), Sha256([])));
      captured, data := CaptureEntry(s);
    }

    /** `_write_archive` for a selection: every artifact is copied as it is captured. */
    method WriteArchive(policy: Policy, policyText: Digest, selected: seq<Snapshot>, maxArtifacts: nat, maxTotalBytes: nat,
                        eligibleCount: nat)
      returns (archive: Option<Archive>)
      requires Valid() && files.held.None? && Distinct(selected) && |selected| <= eligibleCount
      requires |selected| <= maxArtifacts && TotalSize(selected) <= maxTotalBytes
      modifies this`files, this`schedule, this`recent, this`trace
      ensures Valid() && Silent(old(trace), trace) && files.held.None?
      ensures archive.Some? ==> Faithful(archive.value, policy) && Captured(selected, archive.value.manifest.entries)
      ensures old(schedule) == [] ==>
                && schedule == [] && files == old(files)
                && (archive.Some? <==> forall s <- selected :: Unchanged(files, s))
                && (archive.Some? ==> forall e <- archive.value.manifest.entries :: Intact(files, e))
    {
      var entries: seq<Entry>, members: seq<Member> := [], [];
      for n := 0 to |selected|
        invariant Valid() && Silent(old(trace), trace) && files.held.None?
        invariant old(schedule) == [] ==>
                    && schedule == [] && files == old(files)
                    && (forall s <- selected[..n] :: Unchanged(files, s)) && forall e <- entries :: Intact(files, e)
        invariant Captured(selected[..n], entries) && Copied(entries, members)
      {
        var captured, data := Copy(selected[n]);
        assert selected[n] in selected;
        if captured.None? {
          return None;
        }
        assert selected[..n + 1] == selected[..n] + [selected[n]];
        entries := entries + [captured.value];
        members := members + [Member(selected[n].name, data, true)];
      }
      assert selected[..|selected|] == selected;
      BuiltManifestIsConsistent(policy, policyText, selected, entries, maxArtifacts, maxTotalBytes, eligibleCount);
      var manifest := BuildManifest(policy, policyText, entries, maxArtifacts, maxTotalBytes, eligibleCount);
      CopyIsFaithful(Archive(manifest, members), policy);
      archive := Some(Archive(manifest, members));
    }

    /** `archive_collector_spool` past its scan: an archive verifies, and holds only snapshots that
        are old enough and not among the newest; nothing is removed. */
    method ArchiveOldest(snapshots: seq<Snapshot>, cutoff: int, keepLatest: nat, maxArtifacts: nat, maxTotalBytes: nat,
                         policy: Policy, policyText: Digest)
      returns (archive: Option<Archive>)
      requires Valid() && files.held.None? && Distinct(snapshots)
      modifies this`files, this`schedule, this`recent, this`trace
      ensures Valid() && Silent(old(trace), trace) && files.held.None?
      ensures archive.Some? ==> Faithful(archive.value, policy) && archive.value.manifest.entries != []
      ensures archive.Some? ==> forall e <- archive.value.manifest.entries ::
                IsEligible(SnapshotOf(e), snapshots, cutoff, keepLatest)
      ensures old(schedule) == [] ==> schedule == [] && files == old(files)
      ensures old(schedule) == [] && archive.Some? ==> forall e <- archive.value.manifest.entries :: Intact(files, e)
    {
      var selected, eligibleCount := SelectSnapshots(snapshots, cutoff, keepLatest, maxArtifacts, maxTotalBytes);
      if selected == [] {
        return None;
      }
      archive := WriteArchive(policy, policyText, selected, maxArtifacts, maxTotalBytes, eligibleCount);
      if archive.Some? {
        EntriesAreSelected(selected, archive.value.manifest.entries);
      }
    }

    method EntryExists(name: nat) returns (found: bool)
      requires Valid() && files.held.None?
      modifies this`files, this`schedule, this`recent, this`trace
      ensures Valid() && Silent(old(trace), trace) && files.held.None?
      ensures files == Run(old(files), Nth(old(schedule), 0)) && schedule == After(old(schedule), 1)
      ensures found <==> name in files.names
    {
      Meanwhile();
      found := name in files.names;
    }

    /** Whether a source is there; None where it is there but does not verify. */
    method Inspect(entry: Entry) returns (there: Option<bool>)
      requires Valid() && files.held.None?
      modifies this`files, this`schedule, this`recent, this`trace
      ensures Valid() && Silent(old(trace), trace) && files.held.None?
      ensures old(schedule) == [] ==>
                && schedule == [] && files == old(files)
                && there == if entry.name !in files.names then Some(false) else if Intact(files, entry) then Some(true) else None
    {
      var found := EntryExists(entry.name);
      if !found {
        return Some(false);
      }
      if old(schedule) == [] {
        CalmSteps(files, SnapshotOf(entry), entry);
      }
      var ok := VerifySource(entry);
      there := if ok then Some(true) else None;
    }

    /** The first pass of `prune_archived_collector_spool` and the source check of
        `verify_collector_spool_archive`: which sources are still there, each verified. */
    method Survey(entries: seq<Entry>) returns (ok: bool, present: seq<Entry>, absent: nat)
      requires Valid() && files.held.None?
      modifies this`files, this`schedule, this`recent, this`trace
      ensures Valid() && Silent(old(trace), trace) && files.held.None?
      ensures ok ==> |present| + absent == |entries| && forall e <- present :: e in entries
      ensures ok && DistinctNames(entries) ==> DistinctNames(present)
      ensures old(schedule) == [] ==>
                && schedule == [] && files == old(files)
                && (ok <==> forall e <- entries :: e.name in files.names ==> Intact(files, e))
                && (ok ==> forall e <- entries :: e in present <==> e.name in files.names)
    {
      present, absent := [], 0;
      for n := 0 to |entries|
        invariant Valid() && Silent(old(trace), trace) && files.held.None?
        invariant |present| + absent == n && forall e <- present :: e in entries[..n]
        invariant DistinctNames(entries) ==> DistinctNames(present)
        invariant old(schedule) == [] ==>
                    schedule == [] && files == old(files) && Surveyed(files, entries[..n], present)
      {
        var entry := entries[n];
        assert entry in entries && entries[..n + 1] == entries[..n] + [entry];
        var state := Inspect(entry);
        if old(schedule) == [] && state.Some? {
          OneMoreSurveyed(files, entries[..n], present, entry);
        }
        match state {
          case None => return false, present, absent;
          case Some(there) =>
            if there {
              NamesGrow(present, entry);
              present := present + [entry];
            } else {
              absent := absent + 1;
            }
        }
      }
      assert entries[..|entries|] == entries;
      ok := true;
    }

    /** One turn of the second pass; `clean` says that nothing disturbs it. */
    method RemoveNext(present: seq<Entry>, n: nat, ghost from: Files, ghost past: seq<Effect>, ghost clean: bool)
      returns (ok: bool)
      requires Valid() && files.held.None? && Justified(past, trace, present) && n < |present|
      requires clean ==> schedule == [] && Undisturbed([], from, present) && files == Without(from, present[..n])
      requires Bound(from) && from.held.None?
      modifies this`files, this`schedule, this`recent, this`trace
      ensures Valid() && files.held.None? && Justified(past, trace, present)
      ensures |Removals(trace)| == |Removals(old(trace))| + if ok then 1 else 0
      ensures clean ==> ok && schedule == [] && files == Without(from, present[..n + 1])
    {
      assert present[n] in present;
      if clean {
        NextIsIntact(from, present, n);
        CalmPrune(files, present[n]);
      }
      ok := PruneEntry(present[n]);
      if ok {
        JustifiedGrows(Removals(past), Removals(old(trace)), Removals(trace), present);
      }
    }

    /** The second pass: each present source is verified again and removed. */
    method RemovePresent(present: seq<Entry>) returns (ok: bool, count: nat, bytes: nat)
      requires Valid() && files.held.None?
      modifies this`files, this`schedule, this`recent, this`trace
      ensures Valid() && files.held.None? && Justified(old(trace), trace, present)
      ensures ok ==> count == |present| == |Removals(trace)| - |Removals(old(trace))| && bytes == EntryBytes(present)
      ensures Undisturbed(old(schedule), old(files), present) ==> ok && files == Without(old(files), present)
    {
      count, bytes := 0, 0;
      ghost var clean := Undisturbed(schedule, files, present);
      assert files == Without(files, present[..0]);
      for n := 0 to |present|
        invariant Valid() && files.held.None? && Justified(old(trace), trace, present)
        invariant count == n == |Removals(trace)| - |Removals(old(trace))| && bytes == EntryBytes(present[..n])
        invariant clean ==> schedule == [] && files == Without(old(files), present[..n])
      {
        assert present[..n + 1][..n] == present[..n];
        ok := RemoveNext(present, n, old(files), old(trace), clean);
        if !ok {
          return;
        }
        count, bytes := count + 1, bytes + present[n].bytes;
      }
      assert present[..|present|] == present;
      ok := true;
    }

    /** The part of `prune_archived_collector_spool` that follows the verification. */
    method PruneVerified(entries: seq<Entry>, dryRun: bool, authorized: bool) returns (outcome: Outcome, absent: nat)
      requires Valid() && files.held.None? && DistinctNames(entries)
      modifies this`files, this`schedule, this`recent, this`trace
      ensures Valid() && files.held.None? && Justified(old(trace), trace, entries)
      ensures Removals(trace) != Removals(old(trace)) ==> authorized && !dryRun
      ensures outcome.Pruned? ==> outcome.count == |Removals(trace)| - |Removals(old(trace))|
      ensures outcome.Pruned? ==> outcome.count + absent == |entries|
      ensures outcome.NothingToPrune? ==> absent == |entries|
      ensures old(schedule) == [] && authorized && !dryRun ==>
                if forall e <- entries :: e.name in old(files.names) ==> Intact(old(files), e)
                then files == Without(old(files), entries) && !outcome.Failed?
                else files == old(files) && outcome.Failed?
    {
      var ok, present: seq<Entry>;
      ok, present, absent := Survey(entries);
      if !ok {
        return Failed, absent;
      }
      if dryRun {
        return DryRun(EntryBytes(present)), absent;
      }
      if old(schedule) == [] {
        PresentAreAll(old(files), present, entries);
        assert Undisturbed(schedule, files, present);
      }
      if present == [] {
        assert files.names - {} == files.names;
        return NothingToPrune, absent;
      }
      if !authorized {
        return Refused, absent;
      }
      var count, bytes;
      ok, count, bytes := RemovePresent(present);
      outcome := if ok then Pruned(count, bytes) else Failed;
    }

    /** `prune_archived_collector_spool`: nothing goes without a faithful archive and the explicit
        authorization; what goes in an undisturbed moment is the archived content; and on success
        every entry is accounted for. */
    method Prune(archive: Archive, policy: Policy, dryRun: bool, authorized: bool) returns (outcome: Outcome, absent: nat)
      requires Valid() && files.held.None?
      modifies this`files, this`schedule, this`recent, this`trace
      ensures Valid() && files.held.None? && Justified(old(trace), trace, archive.manifest.entries)
      ensures Removals(trace) != Removals(old(trace)) ==> Faithful(archive, policy) && authorized && !dryRun
      ensures Backed(Removals(trace)[|Removals(old(trace))|..], [archive])
      ensures outcome.Pruned? ==> outcome.count == |Removals(trace)| - |Removals(old(trace))|
      ensures outcome.Pruned? ==> outcome.count + absent == |archive.manifest.entries|
      ensures outcome.NothingToPrune? ==> absent == |archive.manifest.entries|
      ensures old(schedule) == [] && Faithful(archive, policy) && authorized && !dryRun ==>
                if forall e <- archive.manifest.entries :: e.name in old(files.names) ==> Intact(old(files), e)
                then files == Without(old(files), archive.manifest.entries) && !outcome.Failed?
                else files == old(files) && outcome.Failed?
    {
      var faithful := VerifyArchive(archive, policy);
      if !faithful {
        return Failed, 0;
      }
      outcome, absent := PruneVerified(archive.manifest.entries, dryRun, authorized);
      JustifiedIsBacked(Removals(old(trace)), Removals(trace), archive);
    }
  }

  lemma EntriesAreSelected(selected: seq<Snapshot>, entries: seq<Entry>)
    requires Captured(selected, entries)
    ensures forall e <- entries :: SnapshotOf(e) in selected
  {
    forall e <- entries ensures SnapshotOf(e) in selected {
      var k :| 0 <= k < |entries| && entries[k] == e;
      assert selected[k] == SnapshotOf(e);
    }
  }

  /** What an undisturbed survey finds of the entries: each source that is there is intact, and those
      are the present ones. */
  ghost predicate Surveyed(f: Files, entries: seq<Entry>, present: seq<Entry>) {
    && (forall e <- entries :: e.name in f.names ==> Intact(f, e))
    && (forall e <- entries :: e in present <==> e.name in f.names)
    && (forall e <- present :: e in entries)
  }

  lemma OneMoreSurveyed(f: Files, entries: seq<Entry>, present: seq<Entry>, entry: Entry)
    requires Surveyed(f, entries, present) && (entry.name in f.names ==> Intact(f, entry))
    ensures Surveyed(f, entries + [entry], if entry.name in f.names then present + [entry] else present)
  {
  }

  function Without(f: Files, entries: seq<Entry>): Files {
    f.(names := f.names - Names(entries))
  }

  /** Nothing else happens, and every entry's source is as it was archived. */
  ghost predicate Undisturbed(schedule: seq<seq<Event>>, f: Files, present: seq<Entry>) {
    schedule == [] && DistinctNames(present) && forall e <- present :: Intact(f, e)
  }

  lemma NextIsIntact(f: Files, present: seq<Entry>, n: nat)
    requires n < |present| && Undisturbed([], f, present)
    ensures Intact(Without(f, present[..n]), present[n])
    ensures var f' := Without(f, present[..n]);
            f'.(names := f'.names - {present[n].name}) == Without(f, present[..n + 1])
  {
    NamesGrow(present[..n], present[n]);
    assert present[..n + 1] == present[..n] + [present[n]];
    assert present[n] in present;
    assert present[n].name !in Names(present[..n]);
    assert f.names - Names(present[..n]) - {present[n].name} == f.names - Names(present[..n + 1]);
  }

  /** Removing the entries that are present removes all that is there of any entry. */
  lemma PresentAreAll(f: Files, present: seq<Entry>, entries: seq<Entry>)
    requires forall e <- present :: e in entries
    requires forall e <- entries :: e in present <==> e.name in f.names
    ensures Without(f, present) == Without(f, entries)
  {
    assert f.names - Names(present) == f.names - Names(entries);
  }

  /** The removals since `before` are for `entries`, and the quiet ones match. */
  ghost predicate Justified(before: seq<Effect>, after: seq<Effect>, entries: seq<Entry>) {
    before <= after && ForEntries(Removals(before), Removals(after), entries)
  }

  ghost predicate ForEntries(before: seq<Removal>, after: seq<Removal>, entries: seq<Entry>) {
    before <= after && forall r <- after[|before|..] :: r.entry in entries && (r.quiet ==> Matches(r.file, r.entry))
  }

  lemma JustifiedGrows(start: seq<Removal>, before: seq<Removal>, after: seq<Removal>, entries: seq<Entry>)
    requires ForEntries(start, before, entries) && |after| == |before| + 1 && before == after[..|before|]
    requires var r := after[|before|]; r.entry in entries && (r.quiet ==> Matches(r.file, r.entry))
    ensures ForEntries(start, after, entries)
  {
    assert after[|start|..] == before[|start|..] + [after[|before|]];
  }

  lemma MatchIsArchived(r: Removal, archive: Archive)
    requires Holds(archive, r.entry) && Matches(r.file, r.entry)
    ensures InArchive([archive], r.file.data)
  {
    var e := r.entry;
    var m :| m in archive.members && m.name == e.name && m.plain && |m.data| == e.bytes && Sha256(m.data) == e.sha;
    assert m.data == r.file.data && archive in [archive];
  }

  lemma JustifiedIsBacked(before: seq<Removal>, after: seq<Removal>, archive: Archive)
    requires ForEntries(before, after, archive.manifest.entries)
    requires forall e <- archive.manifest.entries :: Holds(archive, e)
    ensures Backed(after[|before|..], [archive])
  {
    forall r <- after[|before|..] | r.quiet ensures InArchive([archive], r.file.data) {
      MatchIsArchived(r, archive);
    }
  }

  // ----- Any sequence of commands

  datatype Command =
    | ArchiveCommand(snapshots: seq<Snapshot>, cutoff: int, keepLatest: nat, maxArtifacts: nat, maxTotalBytes: nat,
                     policy: Policy, policyText: Digest)
    | VerifyCommand(archive: Archive, policy: Policy, sources: bool)
    | PruneCommand(archive: Archive, policy: Policy, dryRun: bool, authorized: bool)

  /** The archives that the prune commands are given. */
  function Pruning(commands: seq<Command>): seq<Archive> {
    if commands == [] then []
    else Pruning(commands[..|commands| - 1])
         + if commands[|commands| - 1].PruneCommand? then [commands[|commands| - 1].archive] else []
  }

  lemma BackedByMore(before: seq<Removal>, after: seq<Removal>, archives: seq<Archive>, more: seq<Archive>)
    requires before <= after && Backed(before, archives) && Backed(after[|before|..], more)
    ensures Backed(after, archives + more)
  {
    forall r <- after | r.quiet ensures InArchive(archives + more, r.file.data) {
      assert after == before + after[|before|..];
      if r in before {
        assert InArchive(archives, r.file.data);
      } else {
        assert r in after[|before|..] && InArchive(more, r.file.data);
      }
    }
  }

  /** One command; only a prune command removes anything. */
  method RunCommand(spool: Spool, command: Command)
    requires spool.Valid() && spool.files.held.None? && (command.ArchiveCommand? ==> Distinct(command.snapshots))
    modifies spool
    ensures spool.Valid() && spool.files.held.None? && old(spool.trace) <= spool.trace
    ensures Removals(old(spool.trace)) <= Removals(spool.trace)
    ensures !command.PruneCommand? ==> Removals(spool.trace) == Removals(old(spool.trace))
    ensures command.PruneCommand? ==>
              Backed(Removals(spool.trace)[|Removals(old(spool.trace))|..], [command.archive])
  {
    match command {
      case ArchiveCommand(snapshots, cutoff, keepLatest, maxArtifacts, maxTotalBytes, policy, policyText) =>
        var archive := spool.ArchiveOldest(snapshots, cutoff, keepLatest, maxArtifacts, maxTotalBytes, policy, policyText);
      case VerifyCommand(archive, policy, sources) =>
        var faithful := VerifyArchive(archive, policy);
        if faithful && sources {
          var ok, present, absent := spool.Survey(archive.manifest.entries);
        }
      case PruneCommand(archive, policy, dryRun, authorized) =>
        var outcome, absent := spool.Prune(archive, policy, dryRun, authorized);
    }
  }

  /** Any sequence of commands with anything in between: every content that was in the spool is in the
      spool or in an archive afterwards, unless other processes took it out or it was removed after
      something had touched it since it was read. */
  method RunCommands(spool: Spool, commands: seq<Command>)
    requires spool.Valid() && spool.files.held.None? && spool.trace == []
    requires forall c <- commands :: c.ArchiveCommand? ==> Distinct(c.snapshots)
    modifies spool
    ensures spool.Valid()
    ensures forall content :: InSpool(old(spool.files), content) ==>
              || InSpool(spool.files, content) || InArchive(Pruning(commands), content)
              || TakenByOthers(old(spool.files), spool.trace, content) || RemovedUnseen(spool.trace, content)
  {
    for n := 0 to |commands|
      invariant spool.Valid() && spool.files.held.None? && Backed(Removals(spool.trace), Pruning(commands[..n]))
    {
      assert commands[..n + 1][..n] == commands[..n] && commands[n] in commands;
      ghost var before := Removals(spool.trace);
      RunCommand(spool, commands[n]);
      if commands[n].PruneCommand? {
        BackedByMore(before, Removals(spool.trace), Pruning(commands[..n]), [commands[n].archive]);
      }
    }
    assert commands[..|commands|] == commands;
    forall content | InSpool(old(spool.files), content)
      ensures || InSpool(spool.files, content) || InArchive(Pruning(commands), content)
              || TakenByOthers(old(spool.files), spool.trace, content) || RemovedUnseen(spool.trace, content)
    {
      NothingIsLost(old(spool.files), spool.trace, Pruning(commands), content);
    }
  }

  /** The two commands one after the other on an undisturbed spool: the archived names are gone,
      nothing else has changed, and the archive holds the content of every one of them. */
  method ArchiveThenPrune(spool: Spool, snapshots: seq<Snapshot>, cutoff: int, keepLatest: nat, maxArtifacts: nat,
                          maxTotalBytes: nat, policy: Policy, policyText: Digest)
    returns (archive: Option<Archive>, outcome: Outcome)
    requires spool.Valid() && spool.files.held.None? && spool.schedule == [] && Distinct(snapshots)
    modifies spool
    ensures archive.None? ==> spool.files == old(spool.files)
    ensures archive.Some? ==>
              && spool.files == Without(old(spool.files), archive.value.manifest.entries)
              && !outcome.Failed?
              && forall e <- archive.value.manifest.entries ::
                   Intact(old(spool.files), e) && InArchive([archive.value], old(spool.files).store[e.id].data)
  {
    archive := spool.ArchiveOldest(snapshots, cutoff, keepLatest, maxArtifacts, maxTotalBytes, policy, policyText);
    if archive.None? {
      return None, NothingToPrune;
    }
    ghost var before := spool.files;
    forall e <- archive.value.manifest.entries
      ensures Intact(before, e) && InArchive([archive.value], before.store[e.id].data)
    {
      assert Holds(archive.value, e);
      MatchIsArchived(Removal(e, before.store[e.id], true), archive.value);
    }
    var absent;
    outcome, absent := spool.Prune(archive.value, policy, false, true);
  }
}
