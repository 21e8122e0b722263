/**
 Which collected artifacts an archive takes: never one of the newest, only old ones, and of those
 the longest run from the oldest on that fits both limits.
 */
module SpoolSelection {

  /** `name` stands for the position of the file name in the order of names. */
  datatype Snapshot = Snapshot(name: nat, device: nat, inode: nat, size: nat, mtime: nat)

  predicate Older(a: Snapshot, b: Snapshot) {
    a.mtime < b.mtime || (a.mtime == b.mtime && a.name < b.name)
  }

  ghost predicate Ascending(s: seq<Snapshot>) {
    forall i, j | 0 <= i < j < |s| :: Older(s[i], s[j])
  }

  /** A directory has each name once. */
  ghost predicate Distinct(s: seq<Snapshot>) {
    forall i, j | 0 <= i < j < |s| :: s[i].name != s[j].name
  }

  function Insert(x: Snapshot, s: seq<Snapshot>): seq<Snapshot> {
    if s == [] || Older(x, s[0]) then [x] + s else [s[0]] + Insert(x, s[1..])
  }

  function Sort(s: seq<Snapshot>): seq<Snapshot> {
    if s == [] then [] else Insert(s[0], Sort(s[1..]))
  }

  lemma {:induction false} InsertKeepsElements(x: Snapshot, s: seq<Snapshot>)
    ensures multiset(Insert(x, s)) == multiset(s) + multiset{x}
  {
    if s == [] || Older(x, s[0]) {
    } else {
      assert s == [s[0]] + s[1..];
      InsertKeepsElements(x, s[1..]);
    }
  }

  lemma {:induction false} SortKeepsElements(s: seq<Snapshot>)
    ensures multiset(Sort(s)) == multiset(s)
  {
    if s != [] {
      assert s == [s[0]] + s[1..];
      SortKeepsElements(s[1..]);
      InsertKeepsElements(s[0], Sort(s[1..]));
    }
  }

  lemma {:induction false} InsertSorts(x: Snapshot, s: seq<Snapshot>)
    requires Ascending(s) && forall y <- s :: y.name != x.name
    ensures Ascending(Insert(x, s))
  {
    if s == [] || Older(x, s[0]) {
    } else {
      InsertSorts(x, s[1..]);
      InsertKeepsElements(x, s[1..]);
      var rest := Insert(x, s[1..]);
      forall j | 0 <= j < |rest| ensures Older(s[0], rest[j]) {
        assert rest[j] in multiset(rest);
      }
    }
  }

  lemma {:induction false} SortSorts(s: seq<Snapshot>)
    requires Distinct(s)
    ensures Ascending(Sort(s))
  {
    if s != [] {
      SortSorts(s[1..]);
      SortKeepsElements(s[1..]);
      forall y <- Sort(s[1..]) ensures y.name != s[0].name {
        assert y in multiset(s[1..]);
      }
      InsertSorts(s[0], Sort(s[1..]));
    }
  }

  function Reverse(s: seq<Snapshot>): (r: seq<Snapshot>)
    ensures |r| == |s| && forall i | 0 <= i < |s| :: r[i] == s[|s| - 1 - i]
  {
    if s == [] then [] else Reverse(s[1..]) + [s[0]]
  }

  function NoNewerThan(s: seq<Snapshot>, cutoff: int): (r: seq<Snapshot>)
    ensures forall x :: x in r <==> x in s && x.mtime <= cutoff
  {
    if s == [] then [] else (if s[0].mtime <= cutoff then [s[0]] else []) + NoNewerThan(s[1..], cutoff)
  }

  /** The snapshots of a listing that come after `x` in age order. */
  ghost function Newer(x: Snapshot, s: seq<Snapshot>): set<Snapshot> {
    set y <- s | Older(x, y)
  }

  ghost predicate IsEligible(x: Snapshot, s: seq<Snapshot>, cutoff: int, keepLatest: nat) {
    x in s && x.mtime <= cutoff && |Newer(x, s)| >= keepLatest
  }

  function TotalSize(s: seq<Snapshot>): nat {
    if s == [] then 0 else TotalSize(s[..|s| - 1]) + s[|s| - 1].size
  }

  /** In an ascending listing, the newer ones are the ones behind. */
  lemma {:induction false} NewerAreBehind(s: seq<Snapshot>, i: nat)
    requires Ascending(s) && i < |s|
    ensures |Newer(s[i], s)| == |s| - 1 - i
    decreases |s| - i
  {
    if i + 1 < |s| {
      NewerAreBehind(s, i + 1);
      assert Newer(s[i], s) == Newer(s[i + 1], s) + {s[i + 1]};
    } else {
      assert Newer(s[i], s) == {};
    }
  }

  lemma NewerIgnoresOrder(x: Snapshot, s: seq<Snapshot>, t: seq<Snapshot>)
    requires multiset(s) == multiset(t)
    ensures Newer(x, s) == Newer(x, t)
  {
    forall y ensures y in s <==> y in t {
      assert y in multiset(s) <==> y in multiset(t);
    }
  }

  lemma {:induction false} FilterKeepsDistinct(s: seq<Snapshot>, cutoff: int)
    requires Distinct(s)
    ensures Distinct(NoNewerThan(s, cutoff))
  {
    if s != [] {
      FilterKeepsDistinct(s[1..], cutoff);
    }
  }

  /** The candidates oldest first, as the source computes them. */
  function Candidates(s: seq<Snapshot>, cutoff: int, keepLatest: nat): seq<Snapshot> {
    var newestFirst := Reverse(Sort(s));
    Sort(NoNewerThan(newestFirst[if keepLatest < |newestFirst| then keepLatest else |newestFirst|..], cutoff))
  }

  lemma CandidatesAreTheEligible(s: seq<Snapshot>, cutoff: int, keepLatest: nat)
    requires Distinct(s)
    ensures Ascending(Candidates(s, cutoff, keepLatest))
    ensures forall x :: x in Candidates(s, cutoff, keepLatest) <==> IsEligible(x, s, cutoff, keepLatest)
  {
    var sorted := Sort(s);
    SortSorts(s);
    SortKeepsElements(s);
    var newestFirst := Reverse(sorted);
    var kept := newestFirst[if keepLatest < |newestFirst| then keepLatest else |newestFirst|..];
    forall i, j | 0 <= i < j < |kept| ensures kept[i].name != kept[j].name {
      var offset := |newestFirst| - |kept|;
      assert Older(sorted[|sorted| - 1 - (offset + j)], sorted[|sorted| - 1 - (offset + i)]);
      SortedHasDistinctNames(s);
    }
    FilterKeepsDistinct(kept, cutoff);
    SortSorts(NoNewerThan(kept, cutoff));
    SortKeepsElements(NoNewerThan(kept, cutoff));
    forall x ensures x in Candidates(s, cutoff, keepLatest) <==> IsEligible(x, s, cutoff, keepLatest) {
      assert x in Candidates(s, cutoff, keepLatest) <==> x in multiset(NoNewerThan(kept, cutoff));
      assert x in s <==> x in multiset(sorted);
      KeptHasEnoughNewer(s, x, keepLatest);
    }
  }

  lemma SortedHasDistinctNames(s: seq<Snapshot>)
    requires Distinct(s)
    ensures Distinct(Sort(s))
  {
    SortKeepsElements(s);
    var sorted := Sort(s);
    SortSorts(s);
    forall i, j | 0 <= i < j < |sorted| ensures sorted[i].name != sorted[j].name {
      assert Older(sorted[i], sorted[j]);
      assert sorted[i] in multiset(s) && sorted[j] in multiset(s);
    }
  }

  lemma BehindTheLatest(sorted: seq<Snapshot>, x: Snapshot, drop: nat)
    requires Ascending(sorted) && drop <= |sorted|
    ensures x in Reverse(sorted)[drop..] <==> exists i :: 0 <= i < |sorted| - drop && sorted[i] == x
  {
    var reversed := Reverse(sorted);
    var kept := reversed[drop..];
    assert forall k | 0 <= k < |kept| :: kept[k] == sorted[|sorted| - 1 - (drop + k)];
    if x in kept {
      var k :| 0 <= k < |kept| && kept[k] == x;
      assert sorted[|sorted| - 1 - (drop + k)] == x;
    }
    if i :| 0 <= i < |sorted| - drop && sorted[i] == x {
      assert kept[|sorted| - 1 - i - drop] == x;
    }
  }

  lemma KeptHasEnoughNewer(s: seq<Snapshot>, x: Snapshot, keepLatest: nat)
    requires Distinct(s)
    ensures var newestFirst := Reverse(Sort(s));
            x in newestFirst[if keepLatest < |newestFirst| then keepLatest else |newestFirst|..]
            <==> x in s && |Newer(x, s)| >= keepLatest
  {
    var sorted := Sort(s);
    SortSorts(s);
    SortKeepsElements(s);
    NewerIgnoresOrder(x, s, sorted);
    assert x in s <==> x in multiset(sorted);
    BehindTheLatest(sorted, x, if keepLatest < |sorted| then keepLatest else |sorted|);
    if x in sorted {
      var i :| 0 <= i < |sorted| && sorted[i] == x;
      NewerAreBehind(sorted, i);
      forall j | 0 <= j < |sorted| && sorted[j] == x ensures j == i {
        assert !Older(x, x);
      }
    }
  }

  lemma EligibleAreDistinct(s: seq<Snapshot>, eligible: seq<Snapshot>)
    requires Distinct(s) && Ascending(eligible) && forall x <- eligible :: x in s
    ensures Distinct(eligible)
  {
    forall i, j | 0 <= i < j < |eligible| ensures eligible[i].name != eligible[j].name {
      assert Older(eligible[i], eligible[j]) && eligible[i] in s && eligible[j] in s;
      var a :| 0 <= a < |s| && s[a] == eligible[i];
      var b :| 0 <= b < |s| && s[b] == eligible[j];
      assert a != b;
    }
  }

  /** `_select_snapshots`: the candidates, oldest first, up to the first that breaks a limit. */
  method SelectSnapshots(snapshots: seq<Snapshot>, cutoff: int, keepLatest: nat, maxArtifacts: nat, maxTotalBytes: nat)
    returns (selected: seq<Snapshot>, eligibleCount: nat)
    requires Distinct(snapshots)
    ensures var eligible := Candidates(snapshots, cutoff, keepLatest);
            && eligibleCount == |eligible| && selected <= eligible
            && (|selected| == |eligible| || |selected| == maxArtifacts
                || TotalSize(eligible[..|selected| + 1]) > maxTotalBytes)
    ensures forall x <- selected :: IsEligible(x, snapshots, cutoff, keepLatest)
    ensures Ascending(selected) && Distinct(selected)
    ensures |selected| <= maxArtifacts && TotalSize(selected) <= maxTotalBytes
  {
    var eligible := Candidates(snapshots, cutoff, keepLatest);
    CandidatesAreTheEligible(snapshots, cutoff, keepLatest);
    selected, eligibleCount := [], |eligible|;
    var totalBytes := 0;
    assert Distinct(eligible) by {
      EligibleAreDistinct(snapshots, eligible);
    }
    for n := 0 to |eligible|
      invariant selected == eligible[..n] && totalBytes == TotalSize(selected)
      invariant n <= maxArtifacts && totalBytes <= maxTotalBytes
    {
      if |selected| >= maxArtifacts {
        break;
      }
      assert eligible[..n + 1][..n] == eligible[..n];
      if totalBytes + eligible[n].size > maxTotalBytes {
        break;
      }
      selected := selected + [eligible[n]];
      totalBytes := totalBytes + eligible[n].size;
    }
  }
}
