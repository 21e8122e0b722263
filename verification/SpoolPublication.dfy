/**
 Crash-safe publication in the privileged helper's spool: a result is written to a temporary file,
 made readable, given to the artifact group, linked under its final name and only then unlinked
 under its temporary name. Recovery removes what a crash left behind.
 */
module SpoolPublication {

  const MAX_OUTPUT_BYTES: nat := 0x1000_0000
  const PRIVATE: nat := 384   // 0o600
  const SHARED: nat := 416    // 0o640

  datatype Name =
    | Temp(plan: nat)            // .perflens-helper-plan-<plan>.tmp
    | ProbeTemp(plan: nat)       // .perflens-helper-probe-plan-<plan>.tmp
    | MalformedTemp(text: nat)   // one of those prefixes with a suffix that is no plan
    | Stat(plan: nat)            // plan-<plan>.stat.csv
    | Perf(plan: nat)            // plan-<plan>.perf.data
    | Marker(plan: nat)          // .perflens-consumed-plan-<plan>
    | Stranger(text: nat)

  datatype Inode = Inode(regular: bool, owner: nat, group: nat, mode: nat, links: nat, data: seq<nat>)
  datatype Spool = Spool(dir: map<Name, nat>, inodes: map<nat, Inode>)
  datatype Identity = Identity(euid: nat, egid: nat, artifactGid: nat)

  // ----- Kernel operations

  ghost function NamesOf(s: Spool, ino: nat): set<Name> {
    set n <- s.dir.Keys | s.dir[n] == ino
  }

  /** Every name has an inode, whose link count covers all its names. */
  ghost predicate Coherent(s: Spool) {
    && (forall n <- s.dir :: s.dir[n] in s.inodes)
    && (forall i <- s.inodes :: |NamesOf(s, i)| <= s.inodes[i].links)
  }

  function Create(s: Spool, name: Name, ino: nat, id: Identity): Spool
    requires name !in s.dir && ino !in s.inodes
  {
    Spool(s.dir[name := ino], s.inodes[ino := Inode(true, id.euid, id.egid, PRIVATE, 1, [])])
  }

  function Change(s: Spool, name: Name, to: Inode): Spool
    requires name in s.dir
  {
    s.(inodes := s.inodes[s.dir[name] := to])
  }

  function Link(s: Spool, from: Name, to: Name): Spool
    requires from in s.dir && s.dir[from] in s.inodes && to !in s.dir
  {
    var ino := s.dir[from];
    Spool(s.dir[to := ino], s.inodes[ino := s.inodes[ino].(links := s.inodes[ino].links + 1)])
  }

  function Unlink(s: Spool, name: Name): Spool
    requires name in s.dir && s.dir[name] in s.inodes
  {
    var ino := s.dir[name];
    var inode := s.inodes[ino];
    Spool(s.dir - {name}, if inode.links <= 1 then s.inodes - {ino} else s.inodes[ino := inode.(links := inode.links - 1)])
  }

  lemma UnlinkIsCoherent(s: Spool, name: Name)
    requires Coherent(s) && name in s.dir
    ensures Coherent(Unlink(s, name))
  {
    var ino := s.dir[name];
    var after := Unlink(s, name);
    assert name in NamesOf(s, ino);
    forall i <- after.inodes ensures |NamesOf(after, i)| <= after.inodes[i].links {
      assert NamesOf(after, i) == NamesOf(s, i) - {name};
    }
    forall n <- after.dir ensures after.dir[n] in after.inodes {
      if after.dir[n] == ino {
        assert {n, name} <= NamesOf(s, ino);
        Fits({n, name}, NamesOf(s, ino));
      }
    }
  }

  lemma Fits(small: set<Name>, large: set<Name>)
    requires small <= large
    ensures |small| <= |large|
  {
    assert large == small + (large - small);
  }

  lemma CreateIsCoherent(s: Spool, name: Name, ino: nat, id: Identity)
    requires Coherent(s) && name !in s.dir && ino !in s.inodes
    ensures Coherent(Create(s, name, ino, id))
  {
    var after := Create(s, name, ino, id);
    forall i <- after.inodes ensures |NamesOf(after, i)| <= after.inodes[i].links {
      assert NamesOf(after, i) == if i == ino then {name} else NamesOf(s, i);
    }
  }

  lemma ChangeIsCoherent(s: Spool, name: Name, to: Inode)
    requires Coherent(s) && name in s.dir && to.links == s.inodes[s.dir[name]].links
    ensures Coherent(Change(s, name, to))
  {
    var after := Change(s, name, to);
    forall i <- after.inodes ensures |NamesOf(after, i)| <= after.inodes[i].links {
      assert NamesOf(after, i) == NamesOf(s, i);
    }
  }

  lemma LinkIsCoherent(s: Spool, from: Name, to: Name)
    requires Coherent(s) && from in s.dir && to !in s.dir
    ensures Coherent(Link(s, from, to))
  {
    var after := Link(s, from, to);
    forall i <- after.inodes ensures |NamesOf(after, i)| <= after.inodes[i].links {
      assert NamesOf(after, i) == if i == s.dir[from] then NamesOf(s, i) + {to} else NamesOf(s, i);
    }
  }

  // ----- Recovery

  predicate IsTemporary(name: Name) {
    name.Temp? || name.ProbeTemp? || name.MalformedTemp?
  }

  predicate SafeIncomplete(inode: Inode, id: Identity) {
    && inode.regular && inode.owner == id.euid && inode.links == 1
    && ((inode.mode == PRIVATE && inode.group == id.egid) || (inode.mode == SHARED && inode.group == id.artifactGid))
  }

  /** `output` is another name of the temporary file `name`, shared and with two links. */
  predicate Publishes(s: Spool, name: Name, output: Name)
    requires name in s.dir && s.dir[name] in s.inodes
  {
    var inode := s.inodes[s.dir[name]];
    output in s.dir && s.dir[output] == s.dir[name] && inode.regular && inode.mode == SHARED && inode.links == 2
  }

  predicate SafePublished(s: Spool, id: Identity, name: Name)
    requires name in s.dir && s.dir[name] in s.inodes && (name.Temp? || name.ProbeTemp?)
  {
    var inode := s.inodes[s.dir[name]];
    && inode.regular && inode.owner == id.euid && inode.group == id.artifactGid && inode.mode == SHARED && inode.links == 2
    && Publishes(s, name, Stat(name.plan)) != Publishes(s, name, Perf(name.plan))
  }

  predicate Recoverable(s: Spool, id: Identity, name: Name) {
    && name in s.dir && s.dir[name] in s.inodes
    && (name.Temp? || name.ProbeTemp?)
    && (SafeIncomplete(s.inodes[s.dir[name]], id) || SafePublished(s, id, name))
  }

  /** What a pass over `listing` leaves, and whether it got to the end. */
  function Recover(s: Spool, id: Identity, listing: seq<Name>): (Spool, bool)
    decreases |listing|
  {
    if listing == [] then (s, true)
    else if !IsTemporary(listing[0]) then Recover(s, id, listing[1..])
    else if !Recoverable(s, id, listing[0]) then (s, false)
    else Recover(Unlink(s, listing[0]), id, listing[1..])
  }

  ghost predicate NoDuplicates(listing: seq<Name>) {
    forall i, j | 0 <= i < j < |listing| :: listing[i] != listing[j]
  }

  /** `listing` shows every name of the directory once, in any order. */
  ghost predicate Lists(listing: seq<Name>, s: Spool) {
    NoDuplicates(listing) && forall n :: n in listing <==> n in s.dir
  }

  /** Two temporary names of one inode are never both recoverable. */
  lemma TemporariesShareNothing(s: Spool, id: Identity, x: Name, y: Name)
    requires Coherent(s) && Recoverable(s, id, x) && y in s.dir && IsTemporary(y) && x != y
    ensures s.dir[x] != s.dir[y]
  {
    var ino := s.dir[x];
    if s.dir[y] == ino {
      var names := if SafeIncomplete(s.inodes[ino], id) then {x, y}
                   else if Publishes(s, x, Stat(x.plan)) then {x, y, Stat(x.plan)} else {x, y, Perf(x.plan)};
      Fits(names, NamesOf(s, ino));
      assert false;
    }
  }

  /** Removing one recoverable temporary file leaves the verdict on the others as it was. */
  lemma VerdictsAreIndependent(s: Spool, id: Identity, x: Name, y: Name)
    requires Coherent(s) && Recoverable(s, id, x) && y in s.dir && IsTemporary(y) && x != y
    ensures Recoverable(s, id, y) <==> Recoverable(Unlink(s, x), id, y)
  {
    TemporariesShareNothing(s, id, x, y);
  }

  ghost predicate AllRecoverable(s: Spool, id: Identity, listing: seq<Name>) {
    forall n <- listing :: IsTemporary(n) ==> Recoverable(s, id, n)
  }

  /** Recovery reaches the end exactly when every temporary file was recoverable to begin with. */
  lemma {:induction false} RecoverIffAllRecoverable(s: Spool, id: Identity, listing: seq<Name>)
    requires Coherent(s) && NoDuplicates(listing) && forall n <- listing :: n in s.dir
    ensures Recover(s, id, listing).1 <==> AllRecoverable(s, id, listing)
    ensures Coherent(Recover(s, id, listing).0)
    decreases |listing|
  {
    if listing != [] {
      var x, rest := listing[0], listing[1..];
      assert listing == [x] + rest;
      assert forall i | 0 <= i < |rest| :: rest[i] == listing[i + 1];
      if !IsTemporary(x) {
        RecoverIffAllRecoverable(s, id, rest);
      } else if Recoverable(s, id, x) {
        UnlinkIsCoherent(s, x);
        RecoverIffAllRecoverable(Unlink(s, x), id, rest);
        forall y <- rest | IsTemporary(y) ensures Recoverable(s, id, y) <==> Recoverable(Unlink(s, x), id, y) {
          VerdictsAreIndependent(s, id, x, y);
        }
      }
    }
  }

  /** What recovery touches: names go only if they are temporary, and a file loses at most links. */
  lemma {:induction false} RecoverKeepsTheRest(s: Spool, id: Identity, listing: seq<Name>)
    requires Coherent(s) && NoDuplicates(listing) && forall n <- listing :: n in s.dir
    ensures var (after, ok) := Recover(s, id, listing);
            && (forall n <- s.dir :: n in after.dir || (n in listing && IsTemporary(n)))
            && (forall n <- after.dir :: n in s.dir && after.dir[n] == s.dir[n])
            && (ok ==> forall n <- listing :: IsTemporary(n) ==> n !in after.dir)
            && (forall n <- after.dir :: after.dir[n] in after.inodes
                                         && after.inodes[after.dir[n]].data == s.inodes[s.dir[n]].data
                                         && after.inodes[after.dir[n]].mode == s.inodes[s.dir[n]].mode
                                         && after.inodes[after.dir[n]].group == s.inodes[s.dir[n]].group)
    decreases |listing|
  {
    if listing != [] {
      var x, rest := listing[0], listing[1..];
      assert listing == [x] + rest;
      assert forall i | 0 <= i < |rest| :: rest[i] == listing[i + 1];
      if !IsTemporary(x) {
        RecoverKeepsTheRest(s, id, rest);
      } else if Recoverable(s, id, x) {
        UnlinkIsCoherent(s, x);
        RecoverKeepsTheRest(Unlink(s, x), id, rest);
      }
    }
  }

  lemma {:induction false} NothingToRecover(s: Spool, id: Identity, listing: seq<Name>)
    requires forall n <- listing :: !IsTemporary(n)
    ensures Recover(s, id, listing) == (s, true)
    decreases |listing|
  {
    if listing != [] {
      NothingToRecover(s, id, listing[1..]);
    }
  }

  /** Once it has reached the end, running it again changes nothing. */
  lemma RecoveryIsIdempotent(s: Spool, id: Identity, listing: seq<Name>, again: seq<Name>)
    requires Coherent(s) && Lists(listing, s) && Recover(s, id, listing).1
    requires Lists(again, Recover(s, id, listing).0)
    ensures Recover(Recover(s, id, listing).0, id, again) == (Recover(s, id, listing).0, true)
  {
    RecoverKeepsTheRest(s, id, listing);
    NothingToRecover(Recover(s, id, listing).0, id, again);
  }

  // ----- The entries a plan may start from

  predicate SafeEntry(s: Spool, id: Identity, name: Name) {
    && name in s.dir && s.dir[name] in s.inodes
    && var inode := s.inodes[s.dir[name]];
       match name
       case Marker(_) =>
         inode.regular && inode.owner == id.euid && inode.group == id.egid && inode.mode == PRIVATE && inode.links == 1
         && |inode.data| == 0
       case Stat(_) => SafeArtifact(inode, id)
       case Perf(_) => SafeArtifact(inode, id)
       case _ => false
  }

  predicate SafeArtifact(inode: Inode, id: Identity) {
    && inode.regular && inode.owner == id.euid && inode.group == id.artifactGid && inode.mode == SHARED
    && inode.links == 1 && 0 < |inode.data| <= MAX_OUTPUT_BYTES
  }

  ghost predicate Accepted(s: Spool, id: Identity) {
    forall n <- s.dir :: SafeEntry(s, id, n)
  }

  function ArtifactBytes(s: Spool, name: Name): nat {
    if name.Marker? || name !in s.dir || s.dir[name] !in s.inodes then 0 else |s.inodes[s.dir[name]].data|
  }

  function TotalBytes(s: Spool, listing: seq<Name>): nat {
    if listing == [] then 0 else TotalBytes(s, listing[..|listing| - 1]) + ArtifactBytes(s, listing[|listing| - 1])
  }

  function Artifacts(listing: seq<Name>): nat {
    if listing == [] then 0
    else Artifacts(listing[..|listing| - 1]) + if listing[|listing| - 1].Marker? then 0 else 1
  }

  /** `validate_spool_entries` */
  method ValidateSpoolEntries(s: Spool, id: Identity, listing: seq<Name>) returns (ok: bool, count: nat, bytes: nat)
    requires Lists(listing, s) && forall n <- s.dir :: s.dir[n] in s.inodes
    ensures ok <==> Accepted(s, id)
    ensures ok ==> bytes == TotalBytes(s, listing) && count == Artifacts(listing)
    ensures ok ==> count <= bytes <= count * MAX_OUTPUT_BYTES
  {
    count, bytes := 0, 0;
    for n := 0 to |listing|
      invariant forall m <- listing[..n] :: SafeEntry(s, id, m)
      invariant bytes == TotalBytes(s, listing[..n]) && count == Artifacts(listing[..n])
      invariant count <= bytes <= count * MAX_OUTPUT_BYTES
    {
      var name := listing[n];
      var inode := s.inodes[s.dir[name]];
      assert listing[..n + 1][..n] == listing[..n];
      assert name in s.dir;
      if name.Marker? {
        if !(inode.regular && inode.owner == id.euid && inode.group == id.egid && inode.mode == PRIVATE
             && inode.links == 1 && |inode.data| == 0) {
          return false, 0, 0;
        }
        continue;
      }
      if !(name.Stat? || name.Perf?) || !inode.regular || inode.owner != id.euid || inode.group != id.artifactGid
         || inode.mode != SHARED || inode.links != 1 || |inode.data| == 0 || |inode.data| > MAX_OUTPUT_BYTES {
        return false, 0, 0;
      }
      count := count + 1;
      bytes := bytes + |inode.data|;
    }
    assert listing[..|listing|] == listing;
    ok := true;
  }

  // ----- Every state a publication passes through

  datatype Job = Job(plan: nat, stat: bool)

  function Output(job: Job): Name {
    if job.stat then Stat(job.plan) else Perf(job.plan)
  }

  datatype Phase =
    | Before
    | Probing(data: seq<nat>)
    | Collecting(data: seq<nat>)
    | Readable(data: seq<nat>)
    | Owned(data: seq<nat>)
    | Linked(data: seq<nat>)
    | Published(data: seq<nat>)

  /** Data that reaches the publication steps is complete and within the limit. */
  predicate Sound(phase: Phase) {
    phase.Readable? || phase.Owned? || phase.Linked? || phase.Published? ==> 0 < |phase.data| <= MAX_OUTPUT_BYTES
  }

  function Hold(s: Spool, name: Name, ino: nat, inode: Inode): Spool {
    Spool(s.dir[name := ino], s.inodes[ino := inode])
  }

  /** The spool when a crash strikes in `phase`. */
  function At(s: Spool, id: Identity, job: Job, ino: nat, phase: Phase): Spool {
    match phase
    case Before => s
    case Probing(d) => Hold(s, ProbeTemp(job.plan), ino, Inode(true, id.euid, id.egid, PRIVATE, 1, d))
    case Collecting(d) => Hold(s, Temp(job.plan), ino, Inode(true, id.euid, id.egid, PRIVATE, 1, d))
    case Readable(d) => Hold(s, Temp(job.plan), ino, Inode(true, id.euid, id.egid, SHARED, 1, d))
    case Owned(d) => Hold(s, Temp(job.plan), ino, Inode(true, id.euid, id.artifactGid, SHARED, 1, d))
    case Linked(d) =>
      Spool(s.dir[Temp(job.plan) := ino][Output(job) := ino], s.inodes[ino := Inode(true, id.euid, id.artifactGid, SHARED, 2, d)])
    case Published(d) => Hold(s, Output(job), ino, Inode(true, id.euid, id.artifactGid, SHARED, 1, d))
  }

  ghost predicate Clean(s: Spool, id: Identity, ino: nat) {
    Accepted(s, id) && ino !in s.inodes
  }

  function InProgress(job: Job, phase: Phase): Name {
    if phase.Probing? then ProbeTemp(job.plan) else Temp(job.plan)
  }

  lemma {:induction false} OneTemporary(s: Spool, id: Identity, listing: seq<Name>, temporary: Name)
    requires NoDuplicates(listing) && IsTemporary(temporary)
    requires forall n <- listing :: IsTemporary(n) ==> n == temporary
    ensures Recover(s, id, listing)
         == if temporary !in listing then (s, true)
            else if Recoverable(s, id, temporary) then (Unlink(s, temporary), true) else (s, false)
    decreases |listing|
  {
    if temporary !in listing {
      NothingToRecover(s, id, listing);
    } else {
      var x, rest := listing[0], listing[1..];
      assert listing == [x] + rest;
      assert forall i | 0 <= i < |rest| :: rest[i] == listing[i + 1];
      if x == temporary {
        if Recoverable(s, id, x) {
          NothingToRecover(Unlink(s, x), id, rest);
        }
      } else {
        OneTemporary(s, id, rest, temporary);
      }
    }
  }

  lemma CrashVerdict(s: Spool, id: Identity, job: Job, ino: nat, phase: Phase)
    requires Clean(s, id, ino) && Sound(phase) && !phase.Before? && !phase.Published?
    ensures Recoverable(At(s, id, job, ino, phase), id, InProgress(job, phase))
       <==> !(phase.Readable? && id.egid != id.artifactGid)
  {
    if !phase.Linked? {
      assert SafeIncomplete(At(s, id, job, ino, phase).inodes[ino], id) <==> !(phase.Readable? && id.egid != id.artifactGid);
    }
  }

  /** The spool recovery should leave: untouched, or with the whole output under its one name. */
  function Settled(s: Spool, id: Identity, job: Job, ino: nat, phase: Phase): Spool {
    if phase.Linked? || phase.Published? then At(s, id, job, ino, Published(phase.data)) else s
  }

  lemma UnlinkSettles(s: Spool, id: Identity, job: Job, ino: nat, phase: Phase)
    requires Clean(s, id, ino) && !phase.Before? && !phase.Published?
    ensures Unlink(At(s, id, job, ino, phase), InProgress(job, phase)) == Settled(s, id, job, ino, phase)
  {
    assert Temp(job.plan) !in s.dir && ProbeTemp(job.plan) !in s.dir by {
      assert !SafeEntry(s, id, Temp(job.plan)) && !SafeEntry(s, id, ProbeTemp(job.plan));
    }
    var after, settled := Unlink(At(s, id, job, ino, phase), InProgress(job, phase)), Settled(s, id, job, ino, phase);
    assert after.dir == settled.dir;
    assert after.inodes == settled.inodes;
  }

  /** A crash is recovered from unless it falls between the change of mode and the change of group
      of two different groups; then the temporary file stays and no plan can start any more. */
  lemma CrashPointRecovers(s: Spool, id: Identity, job: Job, ino: nat, phase: Phase, listing: seq<Name>)
    requires Clean(s, id, ino) && Sound(phase) && Lists(listing, At(s, id, job, ino, phase))
    ensures var (after, ok) := Recover(At(s, id, job, ino, phase), id, listing);
            && (ok <==> !(phase.Readable? && id.egid != id.artifactGid))
            && after == (if ok then Settled(s, id, job, ino, phase) else At(s, id, job, ino, phase))
            && (Accepted(after, id) <==> ok)
  {
    var crashed := At(s, id, job, ino, phase);
    var t := InProgress(job, phase);
    forall n <- s.dir ensures !IsTemporary(n) {
      assert SafeEntry(s, id, n);
    }
    OneTemporary(crashed, id, listing, t);
    if phase.Before? || phase.Published? {
      assert t !in listing;
    } else {
      assert t in crashed.dir;
      CrashVerdict(s, id, job, ino, phase);
      UnlinkSettles(s, id, job, ino, phase);
      assert !SafeEntry(crashed, id, t);
    }
    SettledIsAccepted(s, id, job, ino, phase);
  }

  lemma SettledIsAccepted(s: Spool, id: Identity, job: Job, ino: nat, phase: Phase)
    requires Clean(s, id, ino) && Sound(phase)
    ensures Accepted(Settled(s, id, job, ino, phase), id)
  {
    var settled := Settled(s, id, job, ino, phase);
    forall n <- settled.dir ensures SafeEntry(settled, id, n) {
      assert n in s.dir ==> SafeEntry(s, id, n);
    }
  }

  // ----- The helper's own steps

  /** The final name is only ever linked where there was none. */
  predicate Reachable(before: Spool, job: Job, phase: Phase) {
    Sound(phase) && (phase.Linked? || phase.Published? ==> Output(job) !in before.dir)
  }

  /** `s` is a state some crash during the job can leave. */
  ghost predicate PassedThrough(before: Spool, id: Identity, job: Job, s: Spool) {
    exists ino, phase :: Clean(before, id, ino) && Reachable(before, job, phase) && s == At(before, id, job, ino, phase)
  }

  /** Where the artifact group is the helper's own, no crash needs an operator. */
  lemma EveryCrashRecoversIfGroupsAgree(before: Spool, id: Identity, job: Job, s: Spool, listing: seq<Name>)
    requires PassedThrough(before, id, job, s) && Lists(listing, s) && id.egid == id.artifactGid
    ensures var (after, ok) := Recover(s, id, listing);
            ok && Accepted(after, id) && forall n <- before.dir :: n in after.dir && after.dir[n] == before.dir[n]
  {
    var ino, phase :| Clean(before, id, ino) && Reachable(before, job, phase) && s == At(before, id, job, ino, phase);
    CrashPointRecovers(before, id, job, ino, phase, listing);
  }

  lemma StepsFollowThePhases(before: Spool, id: Identity, job: Job, ino: nat, data: seq<nat>, more: seq<nat>)
    requires Clean(before, id, ino)
    ensures ProbeTemp(job.plan) !in before.dir && Temp(job.plan) !in before.dir
    ensures Create(before, ProbeTemp(job.plan), ino, id) == At(before, id, job, ino, Probing([]))
    ensures Create(before, Temp(job.plan), ino, id) == At(before, id, job, ino, Collecting([]))
    ensures var s := At(before, id, job, ino, Probing(data));
            Change(s, ProbeTemp(job.plan), s.inodes[ino].(data := data + more)) == At(before, id, job, ino, Probing(data + more))
    ensures var s := At(before, id, job, ino, Collecting(data));
            Change(s, Temp(job.plan), s.inodes[ino].(data := data + more)) == At(before, id, job, ino, Collecting(data + more))
  {
    assert !SafeEntry(before, id, Temp(job.plan)) && !SafeEntry(before, id, ProbeTemp(job.plan));
  }

  lemma PublicationFollowsThePhases(before: Spool, id: Identity, job: Job, ino: nat, data: seq<nat>)
    requires Clean(before, id, ino)
    ensures var s := At(before, id, job, ino, Collecting(data));
            Change(s, Temp(job.plan), s.inodes[ino].(mode := SHARED)) == At(before, id, job, ino, Readable(data))
    ensures var s := At(before, id, job, ino, Readable(data));
            Change(s, Temp(job.plan), s.inodes[ino].(group := id.artifactGid)) == At(before, id, job, ino, Owned(data))
    ensures Output(job) !in before.dir ==>
              Link(At(before, id, job, ino, Owned(data)), Temp(job.plan), Output(job)) == At(before, id, job, ino, Linked(data))
  {
  }

  // ----- Coherence

  /** The temporary file of a job, by either name, is coherent however much has been written to it. */
  lemma ReservedIsCoherent(before: Spool, id: Identity, job: Job, ino: nat, phase: Phase)
    requires Coherent(before) && Clean(before, id, ino) && (phase.Probing? || phase.Collecting?)
    ensures Coherent(At(before, id, job, ino, phase))
  {
    StepsFollowThePhases(before, id, job, ino, [], phase.data);
    assert [] + phase.data == phase.data;
    var name := InProgress(job, phase);
    var created := Create(before, name, ino, id);
    CreateIsCoherent(before, name, ino, id);
    ChangeIsCoherent(created, name, created.inodes[ino].(data := phase.data));
  }

  lemma ReadableIsCoherent(before: Spool, id: Identity, job: Job, ino: nat, data: seq<nat>)
    requires Coherent(before) && Clean(before, id, ino)
    ensures Coherent(At(before, id, job, ino, Readable(data))) && Coherent(At(before, id, job, ino, Owned(data)))
  {
    PublicationFollowsThePhases(before, id, job, ino, data);
    ReservedIsCoherent(before, id, job, ino, Collecting(data));
    var collecting := At(before, id, job, ino, Collecting(data));
    ChangeIsCoherent(collecting, Temp(job.plan), collecting.inodes[ino].(mode := SHARED));
    var readable := At(before, id, job, ino, Readable(data));
    ChangeIsCoherent(readable, Temp(job.plan), readable.inodes[ino].(group := id.artifactGid));
  }

  lemma LinkedIsCoherent(before: Spool, id: Identity, job: Job, ino: nat, data: seq<nat>)
    requires Coherent(before) && Clean(before, id, ino) && Output(job) !in before.dir
    ensures Coherent(At(before, id, job, ino, Linked(data))) && Coherent(At(before, id, job, ino, Published(data)))
  {
    PublicationFollowsThePhases(before, id, job, ino, data);
    ReadableIsCoherent(before, id, job, ino, data);
    LinkIsCoherent(At(before, id, job, ino, Owned(data)), Temp(job.plan), Output(job));
    UnlinkIsCoherent(At(before, id, job, ino, Linked(data)), Temp(job.plan));
    UnlinkSettles(before, id, job, ino, Linked(data));
  }

  lemma PhaseIsCoherent(before: Spool, id: Identity, job: Job, ino: nat, phase: Phase)
    requires Coherent(before) && Clean(before, id, ino) && Reachable(before, job, phase)
    ensures Coherent(At(before, id, job, ino, phase))
  {
    match phase
    case Before =>
    case Probing(_) => ReservedIsCoherent(before, id, job, ino, phase);
    case Collecting(_) => ReservedIsCoherent(before, id, job, ino, phase);
    case Readable(data) => ReadableIsCoherent(before, id, job, ino, data);
    case Owned(data) => ReadableIsCoherent(before, id, job, ino, data);
    case Linked(data) => LinkedIsCoherent(before, id, job, ino, data);
    case Published(data) => LinkedIsCoherent(before, id, job, ino, data);
  }

  /** Every state a crash can leave is one that recovery's lemmas speak of. */
  lemma EveryCrashIsCoherent(before: Spool, id: Identity, job: Job, s: Spool)
    requires PassedThrough(before, id, job, s) && Coherent(before)
    ensures Coherent(s)
  {
    var ino, phase :| Clean(before, id, ino) && Reachable(before, job, phase) && s == At(before, id, job, ino, phase);
    PhaseIsCoherent(before, id, job, ino, phase);
  }

  // ----- One helper after another

  /** A helper's life: the job it had, how far it got, and the listing its successor recovers by. */
  datatype Life = Life(job: Job, ino: nat, phase: Phase, listing: seq<Name>)

  ghost predicate Startable(s: Spool, id: Identity, l: Life) {
    Clean(s, id, l.ino) && Reachable(s, l.job, l.phase) && Lists(l.listing, At(s, id, l.job, l.ino, l.phase))
  }

  function AfterLife(s: Spool, id: Identity, l: Life): (Spool, bool) {
    Recover(At(s, id, l.job, l.ino, l.phase), id, l.listing)
  }

  /** Each helper starts from what the recovery after the one before it left. */
  ghost predicate Lives(s: Spool, id: Identity, lives: seq<Life>)
    decreases |lives|
  {
    lives == []
    || (Startable(s, id, lives[0])
        && (AfterLife(s, id, lives[0]).1 ==> Lives(AfterLife(s, id, lives[0]).0, id, lives[1..])))
  }

  /** The spool after the last life, or after the first recovery that gave up. */
  function EndOf(s: Spool, id: Identity, lives: seq<Life>): (Spool, bool)
    decreases |lives|
  {
    if lives == [] then (s, true)
    else
      var (after, ok) := AfterLife(s, id, lives[0]);
      if ok then EndOf(after, id, lives[1..]) else (after, false)
  }

  predicate BetweenModeAndGroup(id: Identity, l: Life) {
    l.phase.Readable? && id.egid != id.artifactGid
  }

  /** Every name keeps its file, with the same content, mode, group and links. */
  ghost predicate KeepsAll(before: Spool, after: Spool) {
    forall n <- before.dir :: n in after.dir && after.dir[n] == before.dir[n]
                              && before.dir[n] in before.inodes && after.dir[n] in after.inodes
                              && after.inodes[after.dir[n]] == before.inodes[before.dir[n]]
  }

  lemma AcceptedExists(s: Spool, id: Identity, job: Job)
    requires Accepted(s, id)
    ensures forall n <- s.dir :: s.dir[n] in s.inodes
    ensures Temp(job.plan) !in s.dir && ProbeTemp(job.plan) !in s.dir
  {
    assert forall n <- s.dir :: SafeEntry(s, id, n);
    assert !SafeEntry(s, id, Temp(job.plan)) && !SafeEntry(s, id, ProbeTemp(job.plan));
  }

  lemma PhaseKeepsAll(s: Spool, id: Identity, job: Job, ino: nat, phase: Phase)
    requires Clean(s, id, ino) && Reachable(s, job, phase)
    ensures KeepsAll(s, At(s, id, job, ino, phase))
  {
    AcceptedExists(s, id, job);
    var after := At(s, id, job, ino, phase);
    forall n <- s.dir ensures n in after.dir && after.dir[n] == s.dir[n] && after.dir[n] in after.inodes
                              && after.inodes[after.dir[n]] == s.inodes[s.dir[n]] {
      assert s.dir[n] != ino;
    }
  }

  lemma OneLife(s: Spool, id: Identity, l: Life)
    requires Coherent(s) && Accepted(s, id) && Startable(s, id, l)
    ensures var (after, ok) := AfterLife(s, id, l);
            && (ok <==> !BetweenModeAndGroup(id, l))
            && Coherent(after) && KeepsAll(s, after) && (ok ==> Accepted(after, id))
  {
    CrashPointRecovers(s, id, l.job, l.ino, l.phase, l.listing);
    PhaseIsCoherent(s, id, l.job, l.ino, l.phase);
    RecoverIffAllRecoverable(At(s, id, l.job, l.ino, l.phase), id, l.listing);
    if !AfterLife(s, id, l).1 {
      PhaseKeepsAll(s, id, l.job, l.ino, l.phase);
    } else if l.phase.Linked? || l.phase.Published? {
      PhaseKeepsAll(s, id, l.job, l.ino, Published(l.phase.data));
    } else {
      AcceptedExists(s, id, l.job);
    }
  }

  /** However many helpers crash one after the other, wherever they do, no result that was ever
      published is lost; and the spool stays usable if and only if none of them crashed between the
      change of mode and the change of group of two different groups. */
  lemma {:induction false} LivesLoseNothing(s: Spool, id: Identity, lives: seq<Life>)
    requires Coherent(s) && Accepted(s, id) && Lives(s, id, lives)
    ensures var (end, ok) := EndOf(s, id, lives);
            && (ok <==> forall l <- lives :: !BetweenModeAndGroup(id, l))
            && Coherent(end) && KeepsAll(s, end) && (ok ==> Accepted(end, id))
    decreases |lives|
  {
    if lives == [] {
      assert forall n <- s.dir :: SafeEntry(s, id, n);
    } else {
      OneLife(s, id, lives[0]);
      assert lives == [lives[0]] + lives[1..];
      if AfterLife(s, id, lives[0]).1 {
        LivesLoseNothing(AfterLife(s, id, lives[0]).0, id, lives[1..]);
      }
    }
  }

  datatype Fault = Nothing | Tool | Mode | Group | FileSync | HardLink | LinkedSync | Removal | LastSync

  /** Whether the first reservation of the temporary file, its removal before a second attempt and its
      second reservation work. */
  datatype FileFaults = FileFaults(reserves: bool, removes: bool, reservesAgain: bool)

  function Concat(chunks: seq<seq<nat>>): seq<nat> {
    if chunks == [] then [] else Concat(chunks[..|chunks| - 1]) + chunks[|chunks| - 1]
  }

  /** The states from index `start` on are states of the job. */
  ghost predicate Traced(history: seq<Spool>, start: nat, before: Spool, id: Identity, job: Job) {
    start <= |history| && forall s <- history[start..] :: PassedThrough(before, id, job, s)
  }

  class Directory {
    const id: Identity
    var dir: map<Name, nat>
    var inodes: map<nat, Inode>
    ghost var history: seq<Spool>   // the state after every operation

    ghost function View(): Spool
      reads this
    {
      Spool(dir, inodes)
    }

    constructor (id: Identity, dir: map<Name, nat>, inodes: map<nat, Inode>)
      ensures this.id == id && View() == Spool(dir, inodes) && history == []
    {
      this.id, this.dir, this.inodes, history := id, dir, inodes, [];
    }

    method Apply(s: Spool)
      modifies this
      ensures View() == s && history == old(history) + [s]
    {
      dir, inodes := s.dir, s.inodes;
      history := history + [s];
    }

    /** One operation that takes the job to `phase`. */
    method Move(s: Spool, ghost before: Spool, ghost job: Job, ghost ino: nat, ghost phase: Phase, ghost start: nat)
      requires Clean(before, id, ino) && Reachable(before, job, phase) && s == At(before, id, job, ino, phase)
      requires Traced(history, start, before, id, job)
      modifies this
      ensures View() == s && history == old(history) + [s] && Traced(history, start, before, id, job)
    {
      assert PassedThrough(before, id, job, s);
      Apply(s);
      assert history[start..] == old(history)[start..] + [s];
    }

    /** Reserves the temporary file and lets perf write to it. */
    method Collect(job: Job, ino: nat, probe: bool, chunks: seq<seq<nat>>, ghost start: nat)
      requires Clean(View(), id, ino) && Traced(history, start, View(), id, job)
      modifies this
      ensures old(history) <= history && Traced(history, start, old(View()), id, job)
      ensures View() == At(old(View()), id, job, ino, if probe then Probing(Concat(chunks)) else Collecting(Concat(chunks)))
    {
      ghost var before := View();
      var name := if probe then ProbeTemp(job.plan) else Temp(job.plan);
      StepsFollowThePhases(before, id, job, ino, [], []);
      Move(Create(Spool(dir, inodes), name, ino, id), before, job, ino, if probe then Probing([]) else Collecting([]), start);
      for n := 0 to |chunks|
        invariant View() == At(before, id, job, ino,
                               if probe then Probing(Concat(chunks[..n])) else Collecting(Concat(chunks[..n])))
        invariant old(history) <= history && Traced(history, start, before, id, job)
      {
        assert chunks[..n + 1][..n] == chunks[..n];
        ghost var data, next := Concat(chunks[..n]), Concat(chunks[..n + 1]);
        StepsFollowThePhases(before, id, job, ino, data, chunks[n]);
        var inode := inodes[ino];
        Move(Change(Spool(dir, inodes), name, inode.(data := inode.data + chunks[n])), before, job, ino,
             if probe then Probing(next) else Collecting(next), start);
      }
      assert chunks[..|chunks|] == chunks;
    }

    /** Removal of the temporary file. */
    method Discard(job: Job, ino: nat, ghost before: Spool, ghost phase: Phase, ghost start: nat)
      requires Clean(before, id, ino) && Reachable(before, job, phase) && !phase.Before? && !phase.Published?
      requires View() == At(before, id, job, ino, phase) && Traced(history, start, before, id, job)
      modifies this
      ensures old(history) <= history && Traced(history, start, before, id, job)
      ensures View() == Settled(before, id, job, ino, phase)
    {
      UnlinkSettles(before, id, job, ino, phase);
      var name := if Temp(job.plan) in dir then Temp(job.plan) else ProbeTemp(job.plan);
      assert name == InProgress(job, phase) by {
        assert !SafeEntry(before, id, Temp(job.plan));
      }
      Move(Unlink(Spool(dir, inodes), name), before, job, ino,
           if phase.Linked? then Published(phase.data) else Before, start);
    }

    /** The hardware probe: a private temporary file that is never published. */
    method Probe(job: Job, ino: nat, chunks: seq<seq<nat>>, works: bool)
      requires Clean(View(), id, ino)
      modifies this
      ensures old(history) <= history && Traced(history, |old(history)|, old(View()), id, job)
      ensures View() == if works then old(View()) else At(old(View()), id, job, ino, Probing(Concat(chunks)))
    {
      Collect(job, ino, true, chunks, |history|);
      if works {
        Discard(job, ino, old(View()), Probing(Concat(chunks)), |old(history)|);
      }
    }

    /** A hardware attempt that is given up for a software attempt: its temporary file is removed. */
    method GiveUp(job: Job, ino: nat, chunks: seq<seq<nat>>, removes: bool) returns (gone: bool)
      requires Clean(View(), id, ino)
      modifies this
      ensures old(history) <= history && Traced(history, |old(history)|, old(View()), id, job)
      ensures gone <==> removes
      ensures View() == if gone then old(View()) else At(old(View()), id, job, ino, Collecting(Concat(chunks)))
    {
      Collect(job, ino, false, chunks, |history|);
      if removes {
        Discard(job, ino, old(View()), Collecting(Concat(chunks)), |old(history)|);
      }
      return removes;
    }

    /** The collection into the temporary file and its publication. `works` says whether the removal
        after an error, whose own failure is ignored, succeeds. */
    method CollectAndPublish(job: Job, ino: nat, chunks: seq<seq<nat>>, maximum: nat, fault: Fault, works: bool,
                             ghost start: nat)
      returns (ok: bool)
      requires Clean(View(), id, ino) && maximum <= MAX_OUTPUT_BYTES && Output(job) !in dir
      requires Traced(history, start, View(), id, job)
      modifies this
      ensures old(history) <= history && Traced(history, start, old(View()), id, job)
      ensures ok <==> fault == Nothing && 0 < |Concat(chunks)| <= maximum
      ensures ok ==> View() == At(old(View()), id, job, ino, Published(Concat(chunks)))
      ensures !ok && works ==> View() == old(View()) || View() == At(old(View()), id, job, ino, Published(Concat(chunks)))
    {
      Collect(job, ino, false, chunks, start);
      ghost var data := Concat(chunks);
      ghost var phase := Collecting(data);
      ok := fault != Tool && 0 < |inodes[ino].data| <= maximum;
      if ok {
        ok, phase := PublishSteps(job, ino, fault, old(View()), data, start);
      }
      if !ok && works && Temp(job.plan) in dir {
        Discard(job, ino, old(View()), phase, start);
      }
    }

    /** `execute_perf_with_ready` past the probe: refused where the output exists; `failed` holds what
        a hardware attempt wrote that is discarded for a software attempt. The file operations between
        the attempts end the plan at once when they fail. */
    method Publish(job: Job, ino: nat, chunks: seq<seq<nat>>, failed: seq<seq<nat>>, retry: bool, maximum: nat,
                   files: FileFaults, fault: Fault, works: bool)
      returns (ok: bool)
      requires Clean(View(), id, ino) && maximum <= MAX_OUTPUT_BYTES
      modifies this
      ensures old(history) <= history && Traced(history, |old(history)|, old(View()), id, job)
      ensures ok <==> Output(job) !in old(dir) && files.reserves && (retry ==> files.removes && files.reservesAgain)
                      && fault == Nothing && 0 < |Concat(chunks)| <= maximum
      ensures Output(job) in old(dir) || !files.reserves ==> View() == old(View())
      ensures ok ==> View() == At(old(View()), id, job, ino, Published(Concat(chunks)))
      ensures Output(job) !in old(dir) && files.reserves && retry && !files.removes ==>
                View() == At(old(View()), id, job, ino, Collecting(Concat(failed)))
      ensures !ok && works && (retry ==> files.removes) ==>
                View() == old(View()) || View() == At(old(View()), id, job, ino, Published(Concat(chunks)))
    {
      if Output(job) in dir || !files.reserves {
        return false;
      }
      if retry {
        var gone := GiveUp(job, ino, failed, files.removes);
        if !gone || !files.reservesAgain {
          return false;
        }
      }
      ok := CollectAndPublish(job, ino, chunks, maximum, fault, works, |old(history)|);
    }

    ghost predicate Publishable(before: Spool, job: Job, ino: nat, data: seq<nat>, start: nat)
      reads this
    {
      && Clean(before, id, ino) && Output(job) !in before.dir && 0 < |data| <= MAX_OUTPUT_BYTES
      && Traced(history, start, before, id, job)
    }

    /** `set_permissions` on the temporary file. */
    method SetMode(job: Job, ino: nat, ghost before: Spool, ghost data: seq<nat>, ghost start: nat)
      requires Publishable(before, job, ino, data, start) && View() == At(before, id, job, ino, Collecting(data))
      modifies this
      ensures Publishable(before, job, ino, data, start) && View() == At(before, id, job, ino, Readable(data))
      ensures old(history) <= history
    {
      var next := Change(Spool(dir, inodes), Temp(job.plan), inodes[ino].(mode := SHARED));
      assert next == At(before, id, job, ino, Readable(data)) by {
        PublicationFollowsThePhases(before, id, job, ino, data);
      }
      Move(next, before, job, ino, Readable(data), start);
    }

    /** `chown` to the artifact group. */
    method SetGroup(job: Job, ino: nat, ghost before: Spool, ghost data: seq<nat>, ghost start: nat)
      requires Publishable(before, job, ino, data, start) && View() == At(before, id, job, ino, Readable(data))
      modifies this
      ensures Publishable(before, job, ino, data, start) && View() == At(before, id, job, ino, Owned(data))
      ensures old(history) <= history
    {
      var next := Change(Spool(dir, inodes), Temp(job.plan), inodes[ino].(group := id.artifactGid));
      assert next == At(before, id, job, ino, Owned(data)) by {
        PublicationFollowsThePhases(before, id, job, ino, data);
      }
      Move(next, before, job, ino, Owned(data), start);
    }

    /** `hard_link` under the final name. */
    method LinkOutput(job: Job, ino: nat, ghost before: Spool, ghost data: seq<nat>, ghost start: nat)
      requires Publishable(before, job, ino, data, start) && View() == At(before, id, job, ino, Owned(data))
      modifies this
      ensures Publishable(before, job, ino, data, start) && View() == At(before, id, job, ino, Linked(data))
      ensures old(history) <= history
    {
      var next := Link(Spool(dir, inodes), Temp(job.plan), Output(job));
      assert next == At(before, id, job, ino, Linked(data)) by {
        PublicationFollowsThePhases(before, id, job, ino, data);
      }
      Move(next, before, job, ino, Linked(data), start);
    }

    method PublishSteps(job: Job, ino: nat, fault: Fault, ghost before: Spool, ghost data: seq<nat>, ghost start: nat)
      returns (ok: bool, ghost phase: Phase)
      requires Publishable(before, job, ino, data, start) && fault != Tool
      requires View() == At(before, id, job, ino, Collecting(data))
      modifies this
      ensures old(history) <= history && Traced(history, start, before, id, job)
      ensures ok <==> fault == Nothing
      ensures !phase.Before? && !phase.Probing? && phase.data == data && Reachable(before, job, phase)
      ensures View() == At(before, id, job, ino, phase) && (ok ==> phase == Published(data))
    {
      if fault == Mode {
        return false, Collecting(data);
      }
      SetMode(job, ino, before, data, start);
      if fault == Group {
        return false, Readable(data);
      }
      SetGroup(job, ino, before, data, start);
      if fault == FileSync || fault == HardLink {
        return false, Owned(data);
      }
      LinkOutput(job, ino, before, data, start);
      if fault == LinkedSync || fault == Removal {
        return false, Linked(data);
      }
      Discard(job, ino, before, Linked(data), start);
      return fault != LastSync, Published(data);
    }

    /** `recover_stale_temporary_files` */
    method RecoverStaleTemporaryFiles(listing: seq<Name>) returns (ok: bool)
      modifies this
      ensures (View(), ok) == Recover(old(View()), id, listing)
    {
      for n := 0 to |listing|
        invariant Recover(old(View()), id, listing) == Recover(View(), id, listing[n..])
      {
        var name := listing[n];
        assert listing[n..][1..] == listing[n + 1..];
        if !IsTemporary(name) {
          continue;
        }
        var s := Spool(dir, inodes);
        if !Recoverable(s, id, name) {
          return false;
        }
        Apply(Unlink(s, name));
      }
      return true;
    }
  }
}
