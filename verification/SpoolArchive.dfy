/**
 The archive of collected artifacts: its manifest, its members, and the verification of both.
 */
module SpoolArchive {
  import opened Options
  import opened SpoolSelection

  datatype Id = Id(device: nat, inode: nat)
  /** SHA-256, taken to be injective. */
  datatype Digest = Sha256(of: seq<nat>)

  datatype Policy = Policy(spoolRoot: nat, allowedUid: nat, privilegeMode: nat)
  datatype Entry = Entry(name: nat, bytes: nat, mtime: nat, id: Id, sha: Digest)
  datatype ArchiveId = ArchiveId(policyText: Digest, spoolRoot: nat, entries: seq<Entry>)
  datatype Manifest = Manifest(policy: Policy, policyText: Digest, archiveId: ArchiveId, entries: seq<Entry>,
                               artifactCount: nat, totalBytes: nat, maxArtifacts: nat, maxTotalBytes: nat,
                               eligibleCount: nat, truncated: bool)

  /** `plain` says that the member has the stored-file safety profile. */
  datatype Member = Member(name: nat, data: seq<nat>, plain: bool)
  datatype Archive = Archive(manifest: Manifest, members: seq<Member>)

  // ----- The manifest

  function EntryBytes(entries: seq<Entry>): nat {
    if entries == [] then 0 else EntryBytes(entries[..|entries| - 1]) + entries[|entries| - 1].bytes
  }

  ghost predicate DistinctNames(entries: seq<Entry>) {
    forall i, j | 0 <= i < j < |entries| :: entries[i].name != entries[j].name
  }

  /** `_archive_manifest` */
  function BuildManifest(policy: Policy, policyText: Digest, entries: seq<Entry>, maxArtifacts: nat, maxTotalBytes: nat,
                         eligibleCount: nat): Manifest {
    Manifest(policy, policyText, ArchiveId(policyText, policy.spoolRoot, entries), entries, |entries|, EntryBytes(entries),
             maxArtifacts, maxTotalBytes, eligibleCount, |entries| < eligibleCount)
  }

  /** What `_validate_manifest_consistency` lets through. */
  ghost predicate Consistent(m: Manifest, policy: Policy) {
    && m.policy == policy
    && m.archiveId == ArchiveId(m.policyText, m.policy.spoolRoot, m.entries)
    && m.artifactCount == |m.entries| && m.totalBytes == EntryBytes(m.entries) && DistinctNames(m.entries)
    && m.artifactCount <= m.maxArtifacts && m.totalBytes <= m.maxTotalBytes && m.artifactCount <= m.eligibleCount
    && (m.truncated <==> m.artifactCount < m.eligibleCount)
  }

  /** Entries captured one for one from a selection. */
  ghost predicate Captured(selected: seq<Snapshot>, entries: seq<Entry>) {
    |entries| == |selected|
    && forall k | 0 <= k < |entries| ::
         && entries[k].name == selected[k].name && entries[k].bytes == selected[k].size == |entries[k].sha.of|
         && entries[k].mtime == selected[k].mtime && entries[k].id == Id(selected[k].device, selected[k].inode)
  }

  lemma {:induction false} CapturedBytes(selected: seq<Snapshot>, entries: seq<Entry>)
    requires Captured(selected, entries)
    ensures EntryBytes(entries) == TotalSize(selected)
    decreases |entries|
  {
    if entries != [] {
      CapturedBytes(selected[..|selected| - 1], entries[..|entries| - 1]);
    }
  }

  /** Every manifest built from a selection under the same policy is consistent. */
  lemma BuiltManifestIsConsistent(policy: Policy, policyText: Digest, selected: seq<Snapshot>, entries: seq<Entry>,
                                  maxArtifacts: nat, maxTotalBytes: nat, eligibleCount: nat)
    requires Captured(selected, entries) && Distinct(selected) && |selected| <= eligibleCount
    requires |selected| <= maxArtifacts && TotalSize(selected) <= maxTotalBytes
    ensures Consistent(BuildManifest(policy, policyText, entries, maxArtifacts, maxTotalBytes, eligibleCount), policy)
  {
    CapturedBytes(selected, entries);
  }

  // ----- The archive

  ghost predicate Holds(archive: Archive, entry: Entry) {
    exists m :: m in archive.members && m.name == entry.name && m.plain && |m.data| == entry.bytes && Sha256(m.data) == entry.sha
  }

  ghost predicate DistinctMembers(members: seq<Member>) {
    forall i, j | 0 <= i < j < |members| :: members[i].name != members[j].name
  }

  /** A consistent manifest and exactly its artifacts, each under its digest. */
  ghost predicate Faithful(archive: Archive, policy: Policy) {
    && Consistent(archive.manifest, policy) && DistinctMembers(archive.members)
    && (forall e <- archive.manifest.entries :: Holds(archive, e))
    && (forall m <- archive.members :: exists e :: e in archive.manifest.entries && e.name == m.name)
  }

  method FindMember(members: seq<Member>, name: nat) returns (at: Option<Member>)
    ensures at.Some? ==> at.value in members && at.value.name == name
    ensures at.None? ==> forall m <- members :: m.name != name
  {
    for n := 0 to |members|
      invariant forall m <- members[..n] :: m.name != name
    {
      if members[n].name == name {
        return Some(members[n]);
      }
    }
    return None;
  }

  /** `_verify_archive`: the manifest, then every entry's member, then nothing unexpected. */
  method VerifyArchive(archive: Archive, policy: Policy) returns (ok: bool)
    ensures ok <==> Faithful(archive, policy)
    ensures ok ==> DistinctNames(archive.manifest.entries) && forall e <- archive.manifest.entries :: Holds(archive, e)
  {
    var members := archive.members;
    ok := IsConsistent(archive.manifest, policy);
    if !ok {
      return;
    }
    for n := 0 to |members|
      invariant DistinctMembers(members[..n])
    {
      var earlier := FindMember(members[..n], members[n].name);
      if earlier.Some? {
        return false;
      }
    }
    assert members[..|members|] == members;
    var expected: set<nat> := {};
    for n := 0 to |archive.manifest.entries|
      invariant forall e <- archive.manifest.entries[..n] :: Holds(archive, e)
      invariant expected == set e <- archive.manifest.entries[..n] :: e.name
    {
      var entry := archive.manifest.entries[n];
      assert entry in archive.manifest.entries;
      var member := FindMember(members, entry.name);
      if member.None? {
        return false;
      }
      SameMember(members, member.value, entry.name);
      if !member.value.plain || |member.value.data| != entry.bytes || Sha256(member.value.data) != entry.sha {
        return false;
      }
      expected := expected + {entry.name};
    }
    ok := forall m <- members :: m.name in expected;
  }

  lemma SameMember(members: seq<Member>, m: Member, name: nat)
    requires DistinctMembers(members) && m in members && m.name == name
    ensures forall other <- members :: other.name == name ==> other == m
  {
  }

  function Names(entries: seq<Entry>): set<nat> {
    set e <- entries :: e.name
  }

  lemma NamesGrow(entries: seq<Entry>, e: Entry)
    ensures Names(entries + [e]) == Names(entries) + {e.name}
    ensures DistinctNames(entries + [e]) <==> DistinctNames(entries) && e.name !in Names(entries)
  {
    var longer := entries + [e];
    assert e in longer && forall x <- entries :: x in longer;
    if DistinctNames(longer) {
      forall i, j | 0 <= i < j < |entries| ensures entries[i].name != entries[j].name {
        assert longer[i].name != longer[j].name;
      }
      forall x <- entries ensures x.name != e.name {
        var i :| 0 <= i < |entries| && entries[i] == x;
        assert longer[i].name != longer[|entries|].name;
      }
    }
  }

  /** Counting the different names is a test for repeated ones. */
  lemma {:induction false} DistinctIffAsMany(entries: seq<Entry>)
    ensures |Names(entries)| <= |entries| && (|Names(entries)| == |entries| <==> DistinctNames(entries))
    decreases |entries|
  {
    if entries != [] {
      var before, e := entries[..|entries| - 1], entries[|entries| - 1];
      assert entries == before + [e];
      DistinctIffAsMany(before);
      NamesGrow(before, e);
      if e.name in Names(before) {
        assert Names(before) + {e.name} == Names(before);
      }
    }
  }

  method IsConsistent(m: Manifest, policy: Policy) returns (ok: bool)
    ensures ok <==> Consistent(m, policy)
  {
    var total := 0;
    for n := 0 to |m.entries|
      invariant total == EntryBytes(m.entries[..n])
    {
      assert m.entries[..n + 1][..n] == m.entries[..n];
      total := total + m.entries[n].bytes;
    }
    assert m.entries[..|m.entries|] == m.entries;
    DistinctIffAsMany(m.entries);
    ok := m.policy == policy && m.archiveId == ArchiveId(m.policyText, m.policy.spoolRoot, m.entries)
       && m.artifactCount == |m.entries| && m.totalBytes == total && |Names(m.entries)| == |m.entries|
       && m.artifactCount <= m.maxArtifacts && m.totalBytes <= m.maxTotalBytes && m.artifactCount <= m.eligibleCount
       && m.truncated == (m.artifactCount < m.eligibleCount);
  }

  ghost predicate Copied(entries: seq<Entry>, members: seq<Member>) {
    |members| == |entries|
    && forall k | 0 <= k < |entries| ::
         members[k].name == entries[k].name && members[k].plain && entries[k].sha == Sha256(members[k].data)
  }

  lemma CopyIsFaithful(archive: Archive, policy: Policy)
    requires Consistent(archive.manifest, policy) && Copied(archive.manifest.entries, archive.members)
    requires forall e <- archive.manifest.entries :: e.bytes == |e.sha.of|
    ensures Faithful(archive, policy)
  {
    var entries, members := archive.manifest.entries, archive.members;
    forall i, j | 0 <= i < j < |members| ensures members[i].name != members[j].name {
      assert entries[i].name != entries[j].name;
    }
    forall e <- entries ensures Holds(archive, e) {
      var k :| 0 <= k < |entries| && entries[k] == e;
      assert members[k] in members;
    }
    forall m <- members ensures exists e :: e in entries && e.name == m.name {
      var k :| 0 <= k < |members| && members[k] == m;
      assert entries[k] in entries;
    }
  }
}
