/**
 The life of the workload leader in `supervise`, on the process table: which paths signal it by
 number, and when it is reaped, while other processes fork, exit, change groups and reuse pids
 between any two system calls.
 */
module SupervisorLifecycle {
  import opened Options
  import opened ProcessTree
  import opened SupervisorSignals

  datatype Failure = LeaderAlreadyReaped | PostReapCleanupFailed | ReapFailed | OtherFailure | SupervisionCleanupFailed

  datatype Completion = Receipt | Error(failure: Failure)

  // ----- The leader in the process table

  /** Instance `leader` was born at `pid`, and wherever it runs it is a child of the supervisor. */
  ghost predicate Leads(k: Kernel, pid: nat, leader: nat) {
    && leader < |k.born| && k.born[leader].pid == pid
    && forall p <- k.table :: k.table[p].instance == leader ==> IsChild(k, p)
  }

  function Since(from: Kernel, to: Kernel): seq<Deed> {
    if |from.deeds| <= |to.deeds| then to.deeds[|from.deeds|..] else []
  }

  /** Only waits that returned other processes. */
  ghost predicate Gentle(deeds: seq<Deed>, leader: nat) {
    forall d <- deeds :: d.Reaped? && d.instance != leader
  }

  /** From `a` to `b` nothing was done to the leader by number, and where the kernel keeps exited
      children it has kept its pid. */
  ghost predicate Spares(a: Kernel, b: Kernel, leader: nat) {
    && a.deeds <= b.deeds && a.keeps == b.keeps && a.supervisor == b.supervisor
    && Gentle(Since(a, b), leader)
    && (a.keeps && Running(a, leader) ==> Running(b, leader))
    && (Running(b, leader) ==> Running(a, leader))
  }

  lemma LaterSpares(a: Kernel, b: Kernel, pid: nat, leader: nat)
    requires Consistent(a) && Consistent(b) && Later(a, b) && Leads(a, pid, leader)
    ensures Spares(a, b, leader) && Leads(b, pid, leader)
  {
    assert Since(a, b) == [];
    if Running(a, leader) {
      assert pid in a.table && a.table[pid].instance == leader;
    }
  }

  lemma SparesTrans(a: Kernel, b: Kernel, c: Kernel, leader: nat)
    requires Spares(a, b, leader) && Spares(b, c, leader)
    ensures Spares(a, c, leader) && Since(a, c) == Since(a, b) + Since(b, c)
  {
    assert c.deeds[|a.deeds|..] == b.deeds[|a.deeds|..] + c.deeds[|b.deeds|..];
  }

  /** A wait that returns another child. */
  lemma ReapOther(k: Kernel, child: nat, pid: nat, leader: nat)
    requires Consistent(k) && Leads(k, pid, leader) && child in k.table && (child != pid || !Running(k, leader))
    ensures Spares(k, Reap(k, child), leader) && Leads(Reap(k, child), pid, leader) && Consistent(Reap(k, child))
  {
    var after := Reap(k, child);
    assert k.table[child].instance != leader;
    assert Since(k, after) == [Reaped(k.table[child].instance)];
    if Running(k, leader) {
      assert pid in after.table && after.table[pid].instance == leader;
    }
  }

  /** Who is reached is the leader or in the leader's process group. */
  ghost predicate ReachesLeader(reached: set<Member>, leader: nat) {
    forall m <- reached :: m.instance == leader || m.group.founder == leader
  }

  /** While the leader has its pid, both kills by number are about it. */
  lemma NumberMeansLeader(k: Kernel, pid: nat, leader: nat)
    requires Consistent(k) && Leads(k, pid, leader) && Running(k, leader)
    ensures ReachesLeader(GroupMembers(k, pid), leader) && ReachesLeader(ProcessMembers(k, pid), leader)
  {
    assert pid in k.table && k.table[pid].instance == leader;
  }

  // ----- Scans, signals and waits

  /** `supervised_processes` and `adopted_processes` */
  method Scan(host: Host, leaderPid: Option<nat>, excluded: set<Key>, ghost pid: nat, ghost leader: nat)
    returns (found: Option<seq<Identity>>)
    requires host.Valid() && Leads(host.kernel, pid, leader)
    modifies host
    ensures host.Valid() && Leads(host.kernel, pid, leader) && Spares(old(host.kernel), host.kernel, leader)
  {
    LaterSpares(host.kernel, host.kernel, pid, leader);
    var failed := host.Fails();
    if failed {
      return None;
    }
    var listing := host.NextListing();
    var snapshot := ProcessSnapshot(host, listing);
    LaterSpares(old(host.kernel), host.kernel, pid, leader);
    var supervised, _ := SupervisedFromSnapshot(snapshot, host.kernel.supervisor, leaderPid, excluded);
    found := Some(supervised);
  }

  /** `signal_supervised_tree` and `signal_adopted_tree` */
  method SignalTree(host: Host, leaderPid: Option<nat>, excluded: set<Key>, ghost pid: nat, ghost leader: nat)
    returns (delivered: Option<bool>)
    requires host.Valid() && Leads(host.kernel, pid, leader)
    modifies host
    ensures host.Valid() && Leads(host.kernel, pid, leader) && Spares(old(host.kernel), host.kernel, leader)
  {
    LaterSpares(host.kernel, host.kernel, pid, leader);
    var failed := host.Fails();
    if failed {
      return None;
    }
    var listing := host.NextListing();
    var supervisor := host.kernel.supervisor;
    var sent, _, _, _ := SignalSupervisedTree(host, listing, supervisor, leaderPid, excluded);
    delivered := sent;
    LaterSpares(old(host.kernel), host.kernel, pid, leader);
  }

  /** `reap_adopted_children`; only a pass that skips the leader's pid may run while it is unreaped. */
  method ReapAdopted(host: Host, skip: Option<nat>, ghost pid: nat, ghost leader: nat)
    requires host.Valid() && Leads(host.kernel, pid, leader) && (skip == Some(pid) || !Running(host.kernel, leader))
    modifies host
    ensures host.Valid() && Leads(host.kernel, pid, leader) && Spares(old(host.kernel), host.kernel, leader)
  {
    LaterSpares(host.kernel, host.kernel, pid, leader);
    var failed := host.Fails();
    if failed {
      return;
    }
    var listing := host.NextListing();
    var snapshot := ProcessSnapshot(host, listing);
    LaterSpares(old(host.kernel), host.kernel, pid, leader);
    for n := 0 to |snapshot|
      invariant host.Valid() && Leads(host.kernel, pid, leader) && Spares(old(host.kernel), host.kernel, leader)
    {
      var child := snapshot[n].key.pid;
      if snapshot[n].parent != host.kernel.supervisor || skip == Some(child) {
        continue;
      }
      ghost var before := host.kernel;
      ghost var at := host.WaitNoHang(child);
      LaterSpares(before, at, pid, leader);
      SparesTrans(old(host.kernel), before, at, leader);
      if host.kernel != at {
        ReapOther(at, child, pid, leader);
        SparesTrans(old(host.kernel), at, host.kernel, leader);
      }
    }
  }

  predicate OnlyLeader(found: seq<Identity>, leaderPid: nat) {
    forall i <- found :: i.key.pid == leaderPid
  }

  /** One turn of the loops that kill, reap and look again. */
  method KillTurn(host: Host, leaderPid: nat, excluded: set<Key>, ghost leader: nat) returns (residual: Option<bool>)
    requires host.Valid() && Leads(host.kernel, leaderPid, leader)
    modifies host
    ensures host.Valid() && Leads(host.kernel, leaderPid, leader) && Spares(old(host.kernel), host.kernel, leader)
  {
    var sent := SignalTree(host, Some(leaderPid), excluded, leaderPid, leader);
    if sent.None? {
      return None;
    }
    ghost var k1 := host.kernel;
    ReapAdopted(host, Some(leaderPid), leaderPid, leader);
    ghost var k2 := host.kernel;
    SparesTrans(old(host.kernel), k1, k2, leader);
    var found := Scan(host, Some(leaderPid), excluded, leaderPid, leader);
    SparesTrans(old(host.kernel), k2, host.kernel, leader);
    if found.None? {
      return None;
    }
    residual := Some(!OnlyLeader(found.value, leaderPid));
  }

  /** `teardown_tree` */
  method TeardownTree(host: Host, leaderPid: nat, excluded: set<Key>, ghost leader: nat) returns (ok: bool)
    requires host.Valid() && Leads(host.kernel, leaderPid, leader)
    modifies host
    ensures host.Valid() && Leads(host.kernel, leaderPid, leader) && Spares(old(host.kernel), host.kernel, leader)
  {
    var sent := SignalTree(host, Some(leaderPid), excluded, leaderPid, leader);
    if sent.None? {
      return false;
    }
    var turns := host.NextTurns();
    for n := 0 to turns
      invariant host.Valid() && Leads(host.kernel, leaderPid, leader) && Spares(old(host.kernel), host.kernel, leader)
    {
      ghost var before := host.kernel;
      ReapAdopted(host, Some(leaderPid), leaderPid, leader);
      SparesTrans(old(host.kernel), before, host.kernel, leader);
      var failed := host.Fails();
      if failed {
        return false;
      }
    }
    var done, _ := KillLoop(host, leaderPid, excluded, leader, old(host.kernel));
    ok := done;
  }

  method KillLoop(host: Host, leaderPid: nat, excluded: set<Key>, ghost leader: nat, ghost from: Kernel)
    returns (ok: bool, residual: bool)
    requires host.Valid() && Leads(host.kernel, leaderPid, leader) && Spares(from, host.kernel, leader)
    modifies host
    ensures host.Valid() && Leads(host.kernel, leaderPid, leader) && Spares(from, host.kernel, leader)
  {
    var turns := host.NextTurns();
    while true
      invariant host.Valid() && Leads(host.kernel, leaderPid, leader) && Spares(from, host.kernel, leader)
      decreases turns
    {
      ghost var before := host.kernel;
      var left := KillTurn(host, leaderPid, excluded, leader);
      SparesTrans(from, before, host.kernel, leader);
      if left.None? {
        return false, false;
      }
      if !left.value || turns == 0 {
        return true, left.value;
      }
      turns := turns - 1;
      var failed := host.Fails();
      if failed {
        return false, false;
      }
    }
  }

  /** `finalize_adopted_descendants`: after the leader is gone its pid is a pid like any other. */
  method FinalizeAdopted(host: Host, excluded: set<Key>, ghost pid: nat, ghost leader: nat) returns (residual: Option<nat>)
    requires host.Valid() && Leads(host.kernel, pid, leader) && !Running(host.kernel, leader)
    modifies host
    ensures host.Valid() && Leads(host.kernel, pid, leader) && Spares(old(host.kernel), host.kernel, leader)
  {
    LaterSpares(host.kernel, host.kernel, pid, leader);
    var turns := host.NextTurns();
    var emptyScans := 0;
    while true
      invariant host.Valid() && Leads(host.kernel, pid, leader) && Spares(old(host.kernel), host.kernel, leader)
      decreases turns
    {
      ghost var k0 := host.kernel;
      var sent := SignalTree(host, None, excluded, pid, leader);
      ghost var k1 := host.kernel;
      SparesTrans(old(host.kernel), k0, k1, leader);
      if sent.None? {
        return None;
      }
      ReapAdopted(host, None, pid, leader);
      ghost var k2 := host.kernel;
      SparesTrans(old(host.kernel), k1, k2, leader);
      var found := Scan(host, None, excluded, pid, leader);
      SparesTrans(old(host.kernel), k2, host.kernel, leader);
      if found.None? {
        return None;
      }
      emptyScans := if found.value == [] then emptyScans + 1 else 0;
      if emptyScans >= 2 {
        return Some(0);
      }
      if turns == 0 {
        return Some(|found.value|);
      }
      turns := turns - 1;
      var failed := host.Fails();
      if failed {
        return None;
      }
    }
  }

  // ----- The stages of a supervised run

  /** The deeds since `from` are those of a stage with at most one wait for the leader. */
  ghost predicate Stage(from: Kernel, to: Kernel, before: seq<Deed>, wait: seq<Deed>, after: seq<Deed>, leader: nat) {
    && from.deeds <= to.deeds && from.keeps == to.keeps && Since(from, to) == before + wait + after
    && Gentle(before, leader) && Gentle(after, leader) && |wait| <= 1
  }

  /** `reap_leader` and `reap_leader_tolerating_absent`: after a wait that does not fail the leader
      does not run; where the kernel keeps it, it is the leader that the wait returns. */
  method WaitForLeader(host: Host, leaderPid: nat, ghost leader: nat) returns (result: Waited, ghost at: Kernel, ghost deed: Deed)
    requires host.Valid() && Leads(host.kernel, leaderPid, leader)
    modifies host
    ensures host.Valid() && Leads(host.kernel, leaderPid, leader) && Leads(at, leaderPid, leader)
    ensures Spares(old(host.kernel), at, leader) && host.kernel.deeds == at.deeds + [deed] && host.kernel.keeps == at.keeps
    ensures result.Broken? <==> deed == WaitFailed
    ensures result.AlreadyGone? <==> deed == NoChild
    ensures result.Returned? <==> deed.Reaped?
    ensures result.Broken? ==> (Running(host.kernel, leader) <==> Running(at, leader))
    ensures !result.Broken? ==> !Running(host.kernel, leader)
    ensures Running(at, leader) && !result.Broken? ==> deed == Reaped(leader)
    ensures !Running(at, leader) ==> deed != Reaped(leader)
  {
    ghost var from := host.kernel;
    result, at := host.WaitBlocking(leaderPid);
    LaterSpares(from, at, leaderPid, leader);
    deed := host.kernel.deeds[|at.deeds|];
    if Running(at, leader) {
      assert leaderPid in at.table && at.table[leaderPid].instance == leader;
    }
    assert forall p <- host.kernel.table :: p in at.table && host.kernel.table[p] == at.table[p];
  }

  /** The two kills by number. */
  method KillLeader(host: Host, leaderPid: nat, ghost leader: nat) returns (ghost kills: seq<Deed>)
    requires host.Valid() && Leads(host.kernel, leaderPid, leader)
    modifies host
    ensures host.Valid() && Leads(host.kernel, leaderPid, leader) && host.kernel.keeps == old(host.kernel.keeps)
    ensures host.kernel.deeds == old(host.kernel.deeds) + kills
    ensures |kills| == 2 && kills[0].KillNumber? && kills[1].KillNumber?
    ensures old(host.kernel.keeps) && Running(old(host.kernel), leader) ==>
              && ReachesLeader(kills[0].reached, leader) && ReachesLeader(kills[1].reached, leader)
              && Running(host.kernel, leader)
    ensures var k := HappenAll(true, old(host.kernel), Next(old(host.schedule)));
            kills[0] == KillNumber(GroupMembers(k, leaderPid))
  {
    ghost var from := host.kernel;
    ghost var at1 := host.KillGroup(leaderPid);
    LaterSpares(from, at1, leaderPid, leader);
    ghost var k1 := host.kernel;
    assert k1.table == at1.table && (Running(at1, leader) ==> Running(k1, leader));
    ghost var at2 := host.KillProcess(leaderPid);
    LaterSpares(k1, at2, leaderPid, leader);
    assert host.kernel.table == at2.table && (Running(at2, leader) ==> Running(host.kernel, leader));
    kills := [KillNumber(GroupMembers(at1, leaderPid)), KillNumber(ProcessMembers(at2, leaderPid))];
    if from.keeps && Running(from, leader) {
      NumberMeansLeader(at1, leaderPid, leader);
      NumberMeansLeader(at2, leaderPid, leader);
    }
  }

  /** `emergency_cleanup` */
  method EmergencyCleanup(host: Host, leaderPid: nat, excluded: set<Key>, ghost leader: nat)
    returns (ok: bool, ghost kills: seq<Deed>, ghost middle: seq<Deed>, ghost last: Deed)
    requires host.Valid() && Leads(host.kernel, leaderPid, leader)
    modifies host
    ensures host.Valid() && Leads(host.kernel, leaderPid, leader)
    ensures old(host.kernel.deeds) <= host.kernel.deeds && host.kernel.keeps == old(host.kernel.keeps)
    ensures Since(old(host.kernel), host.kernel) == kills + middle + [last] && Gentle(middle, leader) && !last.KillNumber?
    ensures |kills| == 2 && kills[0].KillNumber? && kills[1].KillNumber?
    ensures last != WaitFailed ==> !Running(host.kernel, leader)
    ensures ok ==> last != WaitFailed
    ensures old(host.kernel.keeps) && Running(old(host.kernel), leader) ==>
              && ReachesLeader(kills[0].reached, leader) && ReachesLeader(kills[1].reached, leader)
              && last in {WaitFailed, Reaped(leader)}
    ensures var k := HappenAll(true, old(host.kernel), Next(old(host.schedule)));
            kills[0] == KillNumber(GroupMembers(k, leaderPid))
  {
    ghost var from := host.kernel;
    kills := KillLeader(host, leaderPid, leader);
    ghost var k2 := host.kernel;
    LaterSpares(k2, k2, leaderPid, leader);
    var done, residual := KillLoop(host, leaderPid, excluded, leader, k2);
    ghost var k3 := host.kernel;
    var result;
    ghost var at;
    result, at, last := WaitForLeader(host, leaderPid, leader);
    SparesTrans(k2, k3, at, leader);
    middle := Since(k2, at);
    assert at.deeds == k2.deeds + middle;
    assert host.kernel.deeds == from.deeds + (kills + middle + [last]);
    ok := done && !residual && !result.Broken?;
  }

  function Next(schedule: seq<seq<Event>>): seq<Event> {
    if schedule == [] then [] else schedule[0]
  }

  /** `complete_spawned_child` up to the wait for the leader. */
  method UpToTheReap(host: Host, leaderPid: nat, excluded: set<Key>, ghost leader: nat) returns (ok: bool)
    requires host.Valid() && Leads(host.kernel, leaderPid, leader)
    modifies host
    ensures host.Valid() && Leads(host.kernel, leaderPid, leader) && Spares(old(host.kernel), host.kernel, leader)
    ensures old(host.faults) != [] && old(host.faults)[0] ==> !ok && host.kernel == old(host.kernel) && host.schedule == old(host.schedule)
  {
    ghost var from := host.kernel;
    LaterSpares(from, from, leaderPid, leader);
    var failed := host.Fails();               // the evidence boundary
    if failed {
      return false;
    }
    var pidfd, _ := host.PidfdOpen(leaderPid);
    LaterSpares(from, host.kernel, leaderPid, leader);
    if pidfd.None? {
      return false;
    }
    ghost var k1 := host.kernel;
    var identity, _ := host.ReadIdentity(leaderPid);
    LaterSpares(k1, host.kernel, leaderPid, leader);
    SparesTrans(from, k1, host.kernel, leader);
    if identity.None? || identity.value.key.startTicks == 0 {
      return false;
    }
    failed := host.Fails();                   // the setup and the wait for its end
    if failed {
      return false;
    }
    ghost var k2 := host.kernel;
    var observed := Scan(host, Some(leaderPid), excluded, leaderPid, leader);
    SparesTrans(from, k2, host.kernel, leader);
    if observed.None? {
      return false;
    }
    ghost var k3 := host.kernel;
    ok := TeardownTree(host, leaderPid, excluded, leader);
    SparesTrans(from, k3, host.kernel, leader);
  }

  /** `complete_spawned_child` */
  method CompleteSpawnedChild(host: Host, leaderPid: nat, excluded: set<Key>, ghost leader: nat)
    returns (outcome: Completion, ghost before: seq<Deed>, ghost wait: seq<Deed>, ghost after: seq<Deed>)
    requires host.Valid() && Leads(host.kernel, leaderPid, leader)
    modifies host
    ensures host.Valid() && Leads(host.kernel, leaderPid, leader)
    ensures Stage(old(host.kernel), host.kernel, before, wait, after, leader)
    ensures match outcome
            case Receipt => |wait| == 1 && wait[0].Reaped?
            case Error(OtherFailure) => wait == []
            case Error(ReapFailed) => wait == [WaitFailed]
            case Error(LeaderAlreadyReaped) => wait == [NoChild]
            case Error(PostReapCleanupFailed) => |wait| == 1 && wait[0].Reaped?
            case Error(SupervisionCleanupFailed) => false
    ensures wait == [] || wait == [WaitFailed] ==>
              after == [] && (old(host.kernel.keeps) && Running(old(host.kernel), leader) ==> Running(host.kernel, leader))
    ensures wait != [] && wait != [WaitFailed] ==> !Running(host.kernel, leader) && !wait[0].KillNumber?
    ensures wait != [] && wait != [WaitFailed] && old(host.kernel.keeps) && Running(old(host.kernel), leader) ==> wait == [Reaped(leader)]
    ensures old(host.faults) != [] && old(host.faults)[0] ==>
              outcome == Error(OtherFailure) && host.kernel == old(host.kernel) && host.schedule == old(host.schedule)
  {
    ghost var from := host.kernel;
    var ok := UpToTheReap(host, leaderPid, excluded, leader);
    before, wait, after := Since(from, host.kernel), [], [];
    if !ok {
      return Error(OtherFailure), before, wait, after;
    }
    ghost var k1 := host.kernel;
    var result;
    ghost var at, deed;
    result, at, deed := WaitForLeader(host, leaderPid, leader);
    SparesTrans(from, k1, at, leader);
    before, wait := Since(from, at), [deed];
    assert Since(from, host.kernel) == before + wait;
    match result {
      case Broken => return Error(ReapFailed), before, wait, after;
      case AlreadyGone => return Error(LeaderAlreadyReaped), before, wait, after;
      case Returned =>
    }
    ghost var k2 := host.kernel;
    var residual := FinalizeAdopted(host, excluded, leaderPid, leader);
    after := Since(k2, host.kernel);
    assert Since(from, host.kernel) == before + wait + after;
    if residual.None? {
      return Error(PostReapCleanupFailed), before, wait, after;
    }
    var evidence := host.Fails();
    var bound := host.Fails();
    var clock := host.Fails();
    outcome := if evidence || bound || clock then Error(PostReapCleanupFailed) else Receipt;
  }

  // ----- The rule on every path

  /** No kill by number follows a wait that found the leader gone or returned it, and it is returned
      at most once. */
  ghost predicate KillsFirst(deeds: seq<Deed>, leader: nat) {
    forall n, m | 0 <= n < m < |deeds| :: deeds[n] == Reaped(leader) || deeds[n] == NoChild ==>
      !deeds[m].KillNumber? && deeds[m] != Reaped(leader)
  }

  ghost predicate KillsReachLeader(deeds: seq<Deed>, leader: nat) {
    forall d <- deeds :: d.KillNumber? ==> ReachesLeader(d.reached, leader)
  }

  lemma QuietRun(deeds: seq<Deed>, before: seq<Deed>, wait: seq<Deed>, after: seq<Deed>, leader: nat)
    requires deeds == before + wait + after && Gentle(before, leader) && Gentle(after, leader)
    requires |wait| == 1 && !wait[0].KillNumber?
    ensures KillsFirst(deeds, leader) && forall d <- deeds :: !d.KillNumber?
  {
    assert forall n | 0 <= n < |deeds| :: deeds[n] in before || deeds[n] in after || n == |before|;
  }

  lemma EmergencyRun(deeds: seq<Deed>, before: seq<Deed>, wait: seq<Deed>, kills: seq<Deed>, middle: seq<Deed>, last: Deed,
                     leader: nat)
    requires deeds == before + wait + (kills + middle + [last]) && Gentle(before, leader) && Gentle(middle, leader)
    requires wait == [] || wait == [WaitFailed]
    requires |kills| == 2 && kills[0].KillNumber? && kills[1].KillNumber? && !last.KillNumber?
    ensures KillsFirst(deeds, leader)
    ensures ReachesLeader(kills[0].reached, leader) && ReachesLeader(kills[1].reached, leader) ==> KillsReachLeader(deeds, leader)
  {
    var k := |before| + |wait|;
    assert deeds[k] == kills[0] && deeds[k + 1] == kills[1];
    assert forall n | 0 <= n < |deeds| :: n < |before| ==> deeds[n] in before;
    assert forall n | 0 <= n < |deeds| :: k + 2 <= n < |deeds| - 1 ==> deeds[n] in middle;
  }

  /** What every run of `supervise` does to the leader. */
  ghost predicate Lawful(from: Kernel, to: Kernel, outcome: Completion, leader: nat) {
    var deeds := Since(from, to);
    && from.deeds <= to.deeds
    && KillsFirst(deeds, leader)
    && (outcome == Receipt ==> forall d <- deeds :: d.Reaped?)
    && (from.keeps && Running(from, leader) ==>
          && KillsReachLeader(deeds, leader) && NoChild !in deeds
          && (WaitFailed !in deeds ==> Reaped(leader) in deeds && !Running(to, leader))
          && outcome != Error(LeaderAlreadyReaped))
  }

  /** A run that ends with the wait for the leader and gentle deeds around it. */
  lemma QuietIsLawful(from: Kernel, to: Kernel, outcome: Completion, before: seq<Deed>, wait: seq<Deed>, after: seq<Deed>,
                      leader: nat)
    requires from.deeds <= to.deeds && Since(from, to) == before + wait + after
    requires Gentle(before, leader) && Gentle(after, leader) && |wait| == 1 && (wait[0].Reaped? || wait[0] == NoChild)
    requires outcome == Receipt ==> wait[0].Reaped?
    requires from.keeps && Running(from, leader) ==>
               wait == [Reaped(leader)] && !Running(to, leader) && outcome != Error(LeaderAlreadyReaped)
    ensures Lawful(from, to, outcome, leader)
  {
    var deeds := Since(from, to);
    QuietRun(deeds, before, wait, after, leader);
    assert deeds[|before|] == wait[0];
    assert forall d <- deeds :: d in before || d in after || d == wait[0];
  }

  lemma EmergencyIsLawful(from: Kernel, to: Kernel, outcome: Completion, before: seq<Deed>, wait: seq<Deed>,
                          kills: seq<Deed>, middle: seq<Deed>, last: Deed, leader: nat)
    requires from.deeds <= to.deeds && Since(from, to) == before + wait + (kills + middle + [last])
    requires Gentle(before, leader) && Gentle(middle, leader) && (wait == [] || wait == [WaitFailed])
    requires |kills| == 2 && kills[0].KillNumber? && kills[1].KillNumber? && !last.KillNumber? && outcome != Receipt
    requires from.keeps && Running(from, leader) ==>
               && ReachesLeader(kills[0].reached, leader) && ReachesLeader(kills[1].reached, leader)
               && last in {WaitFailed, Reaped(leader)} && (last == WaitFailed || !Running(to, leader))
               && outcome != Error(LeaderAlreadyReaped)
    ensures Lawful(from, to, outcome, leader) && kills[0] in Since(from, to)
  {
    var deeds := Since(from, to);
    EmergencyRun(deeds, before, wait, kills, middle, last, leader);
    assert deeds[|deeds| - 1] == last && deeds[|before| + |wait|] == kills[0];
    assert forall d <- deeds :: d in before || d in wait || d in kills || d in middle || d == last;
  }

  /** The epilogue that never signals by number. */
  method LateEpilogue(host: Host, leaderPid: nat, excluded: set<Key>, ghost leader: nat, primary: Completion)
    returns (outcome: Completion)
    requires host.Valid() && Leads(host.kernel, leaderPid, leader) && !Running(host.kernel, leader)
    requires primary == Error(LeaderAlreadyReaped) || primary == Error(PostReapCleanupFailed)
    modifies host
    ensures host.Valid() && Spares(old(host.kernel), host.kernel, leader)
    ensures outcome == primary || outcome == Error(PostReapCleanupFailed)
  {
    var residual := FinalizeAdopted(host, excluded, leaderPid, leader);
    var bound := host.Fails();
    outcome := if residual != Some(0) || bound then Error(PostReapCleanupFailed) else primary;
  }

  /** `supervise` after the spawn, for every schedule. No kill by number follows the wait that took
      the leader. Where the kernel keeps exited children, every kill by number reaches the leader or
      its group, and unless a wait fails the leader ends reaped, exactly once. */
  method Supervise(host: Host, leaderPid: nat, excluded: set<Key>, ghost leader: nat) returns (outcome: Completion)
    requires host.Valid() && Leads(host.kernel, leaderPid, leader)
    modifies host
    ensures host.Valid() && Lawful(old(host.kernel), host.kernel, outcome, leader)
    ensures old(host.faults) != [] && old(host.faults)[0] ==>
              var k := HappenAll(true, old(host.kernel), Next(old(host.schedule)));
              KillNumber(GroupMembers(k, leaderPid)) in Since(old(host.kernel), host.kernel)
  {
    ghost var from := host.kernel;
    ghost var before, wait, after;
    outcome, before, wait, after := CompleteSpawnedChild(host, leaderPid, excluded, leader);
    ghost var k1 := host.kernel;
    if outcome == Receipt {
      QuietIsLawful(from, k1, outcome, before, wait, after, leader);
    } else if outcome == Error(OtherFailure) || outcome == Error(ReapFailed) {
      outcome := EmergencyEpilogue(host, leaderPid, excluded, leader, outcome, from, before, wait);
    } else {
      outcome := LateEpilogue(host, leaderPid, excluded, leader, outcome);
      ghost var late := Since(k1, host.kernel);
      assert Since(from, host.kernel) == before + wait + (after + late);
      QuietIsLawful(from, host.kernel, outcome, before, wait, after + late, leader);
    }
  }

  /** The epilogue that kills by number before it waits. */
  method EmergencyEpilogue(host: Host, leaderPid: nat, excluded: set<Key>, ghost leader: nat, primary: Completion,
                           ghost from: Kernel, ghost before: seq<Deed>, ghost wait: seq<Deed>)
    returns (outcome: Completion)
    requires host.Valid() && Leads(host.kernel, leaderPid, leader)
    requires primary == Error(OtherFailure) || primary == Error(ReapFailed)
    requires Stage(from, host.kernel, before, wait, [], leader) && (wait == [] || wait == [WaitFailed])
    requires from.keeps && Running(from, leader) ==> Running(host.kernel, leader)
    modifies host
    ensures host.Valid() && Lawful(from, host.kernel, outcome, leader)
    ensures var k := HappenAll(true, old(host.kernel), Next(old(host.schedule)));
            KillNumber(GroupMembers(k, leaderPid)) in Since(from, host.kernel)
  {
    var ok;
    ghost var kills, middle, last;
    ok, kills, middle, last := EmergencyCleanup(host, leaderPid, excluded, leader);
    assert Since(from, host.kernel) == before + wait + (kills + middle + [last]);
    var bound := host.Fails();
    outcome := if !ok || bound then Error(SupervisionCleanupFailed) else primary;
    EmergencyIsLawful(from, host.kernel, outcome, before, wait, kills, middle, last, leader);
  }

  lemma ReusedPid(k: Kernel)
    requires k == Kernel(1, false, map[7 := Process(0, Key(7, 3), 1, Group(0, 7), false)], [Key(7, 3)], 4, [], [])
    ensures var l := HappenAll(true, k, [Gone(7), Fork(7, 2)]);
            7 in l.table && l.table[7] == Process(1, Key(7, 4), 2, Group(1, 7), false)
  {
    var gone := Happen(true, k, Gone(7));
    assert gone.table == map[];
    var forked := Happen(true, gone, Fork(7, 2));
    assert [Gone(7), Fork(7, 2)][1..] == [Fork(7, 2)] && [Fork(7, 2)][1..] == [];
    assert HappenAll(true, gone, [Fork(7, 2)]) == HappenAll(true, forked, []);
  }

  /** Where the kernel reaps exited children by itself the rule fails: the first step of the run
      fails, the leader's pid has been taken over meanwhile, and the emergency kill reaches the
      process that has it now. */
  method AutoReapMisleads() returns (ghost deeds: seq<Deed>)
    ensures !KillsReachLeader(deeds, 0)
  {
    var k := Kernel(1, false, map[7 := Process(0, Key(7, 3), 1, Group(0, 7), false)], [Key(7, 3)], 4, [], []);
    var host := new Host(k, [[Gone(7), Fork(7, 2)]], {}, [], [true], []);
    var outcome := Supervise(host, 7, {}, 0);
    deeds := Since(k, host.kernel);
    ReusedPid(k);
    ghost var l := HappenAll(true, k, [Gone(7), Fork(7, 2)]);
    assert Member(1, Group(1, 7)) in GroupMembers(l, 7);
    assert KillNumber(GroupMembers(l, 7)) in deeds;
  }
}
