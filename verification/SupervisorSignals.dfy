/**
 Signalling through pidfds while the process table changes underneath: scan, re-read, open,
 re-read, send. The environment may act before every one of these system calls.
 */
module SupervisorSignals {
  import opened Options
  import opened ProcessTree

  /** A process group; its number is the pid of its founder. */
  datatype Group = Group(founder: nat, number: nat)

  /** A process that occupies a pid; `instance` never repeats and is invisible to the supervisor. */
  datatype Process = Process(instance: nat, key: Key, parent: nat, group: Group, exited: bool)

  /** What the supervisor does with plain numbers: a kill with the processes and the groups it
      reaches, a wait that returns a child, a wait that fails, a wait that finds no such child. */
  datatype Deed = KillNumber(reached: set<Member>) | Reaped(instance: nat) | WaitFailed | NoChild

  datatype Member = Member(instance: nat, group: Group)

  /** `born[n]` is the key of instance `n`; `signalled` lists the instances a pidfd signal reached.
      With `keeps` an exited child of the supervisor keeps its pid until the supervisor waits for it;
      without it the kernel may reap such a child by itself. */
  datatype Kernel = Kernel(supervisor: nat, keeps: bool, table: map<nat, Process>, born: seq<Key>, ticks: nat,
                           signalled: seq<nat>, deeds: seq<Deed>)

  datatype Event =
    | Fork(pid: nat, parent: nat)
    | Exit(pid: nat)
    | Gone(pid: nat)
    | Reparent(pid: nat, parent: nat)
    | NewGroup(pid: nat)
    | JoinGroup(pid: nat, of: nat)
    | Tick

  predicate IsChild(k: Kernel, pid: nat) {
    pid in k.table && k.table[pid].parent == k.supervisor
  }

  /** What other processes do. A pid can be taken again as soon as neither a process nor a process
      group has it; with `unique` no two processes ever share both pid and start time. A child of the
      supervisor stays its child. */
  function Happen(unique: bool, k: Kernel, e: Event): Kernel {
    match e
    case Fork(pid, parent) =>
      if pid in k.table || (exists q <- k.table :: k.table[q].group.number == pid)
         || (unique && Key(pid, k.ticks) in k.born) then k
      else
        var n := |k.born|;
        var group := if parent in k.table then k.table[parent].group else Group(n, pid);
        k.(table := k.table[pid := Process(n, Key(pid, k.ticks), parent, group, false)], born := k.born + [Key(pid, k.ticks)])
    case Exit(pid) =>
      if pid in k.table then k.(table := k.table[pid := k.table[pid].(exited := true)]) else k
    case Gone(pid) =>
      if k.keeps && IsChild(k, pid) then k else k.(table := k.table - {pid})
    case Reparent(pid, parent) =>
      if pid in k.table && !IsChild(k, pid) then k.(table := k.table[pid := k.table[pid].(parent := parent)]) else k
    case NewGroup(pid) =>
      if pid in k.table then k.(table := k.table[pid := k.table[pid].(group := Group(k.table[pid].instance, pid))]) else k
    case JoinGroup(pid, of) =>
      if pid in k.table && of in k.table then k.(table := k.table[pid := k.table[pid].(group := k.table[of].group)]) else k
    case Tick => k.(ticks := k.ticks + 1)
  }

  function HappenAll(unique: bool, k: Kernel, events: seq<Event>): Kernel
    decreases |events|
  {
    if events == [] then k else HappenAll(unique, Happen(unique, k, events[0]), events[1..])
  }

  /** A group's number is held by its founder or by no process at all. */
  ghost predicate GroupsPinned(k: Kernel) {
    forall p, q | p in k.table && q in k.table ::
      k.table[q].group.number == p ==> k.table[q].group.founder == k.table[p].instance
  }

  ghost predicate Consistent(k: Kernel) {
    && (forall pid <- k.table :: k.table[pid].instance < |k.born|
                                 && k.born[k.table[pid].instance] == k.table[pid].key
                                 && k.table[pid].key.pid == pid)
    && GroupsPinned(k)
  }

  ghost predicate UniqueKeys(k: Kernel) {
    forall i, j | 0 <= i < j < |k.born| :: k.born[i] != k.born[j]
  }

  /** Later than `a`: instances are only added, and whoever was born before and still sits in the
      table sat at the same pid all the time; kept children stay where they are. */
  ghost predicate Later(a: Kernel, b: Kernel) {
    && a.born <= b.born && a.deeds == b.deeds && a.supervisor == b.supervisor && a.keeps == b.keeps
    && (forall pid <- b.table :: b.table[pid].instance < |a.born| ==>
          pid in a.table && a.table[pid].instance == b.table[pid].instance)
    && (forall pid <- a.table :: IsChild(a, pid) ==>
          if pid in b.table && b.table[pid].instance == a.table[pid].instance then IsChild(b, pid) else !a.keeps)
  }

  lemma HappenKeepsGroups(unique: bool, k: Kernel, e: Event)
    requires Consistent(k)
    ensures GroupsPinned(Happen(unique, k, e))
  {
  }

  /** A process that changes nothing of its identity. */
  lemma ChangeIsLater(k: Kernel, pid: nat, to: Process)
    requires Consistent(k) && pid in k.table && GroupsPinned(k.(table := k.table[pid := to]))
    requires to.instance == k.table[pid].instance && to.key == k.table[pid].key
    requires IsChild(k, pid) ==> to.parent == k.supervisor
    ensures Consistent(k.(table := k.table[pid := to])) && Later(k, k.(table := k.table[pid := to]))
  {
  }

  lemma GoneIsLater(k: Kernel, pid: nat)
    requires Consistent(k) && !(k.keeps && IsChild(k, pid))
    ensures Consistent(k.(table := k.table - {pid})) && Later(k, k.(table := k.table - {pid}))
  {
  }

  lemma ForkNamesOne(unique: bool, k: Kernel, pid: nat, parent: nat)
    requires Consistent(k) && pid !in k.table
    ensures var l := Happen(unique, k, Fork(pid, parent));
            l == k || (&& |l.born| == |k.born| + 1 && l.born[..|k.born|] == k.born && l.born[|k.born|].pid == pid
                       && (unique ==> l.born[|k.born|] !in k.born)
                       && l == k.(table := l.table, born := l.born)
                       && pid in l.table && l.table == k.table[pid := l.table[pid]]
                       && l.table[pid].instance == |k.born| && l.table[pid].key == l.born[|k.born|])
  {
  }

  lemma NewcomerIsLater(k: Kernel, l: Kernel, pid: nat)
    requires Consistent(k) && GroupsPinned(l) && pid !in k.table && pid in l.table
    requires |l.born| == |k.born| + 1 && l.born[..|k.born|] == k.born && l.born[|k.born|].pid == pid
    requires l == k.(table := k.table[pid := l.table[pid]], born := l.born)
    requires l.table[pid].instance == |k.born| && l.table[pid].key == l.born[|k.born|]
    ensures Consistent(l) && Later(k, l)
  {
  }

  lemma ForkLater(unique: bool, k: Kernel, pid: nat, parent: nat)
    requires Consistent(k)
    ensures var l := Happen(unique, k, Fork(pid, parent));
            Consistent(l) && Later(k, l) && k.signalled == l.signalled && (unique && UniqueKeys(k) ==> UniqueKeys(l))
  {
    var l := Happen(unique, k, Fork(pid, parent));
    HappenKeepsGroups(unique, k, Fork(pid, parent));
    if l != k {
      ForkNamesOne(unique, k, pid, parent);
      NewcomerIsLater(k, l, pid);
    }
  }

  lemma HappenLater(unique: bool, k: Kernel, e: Event)
    requires Consistent(k)
    ensures var l := Happen(unique, k, e);
            Consistent(l) && Later(k, l) && k.signalled == l.signalled && (unique && UniqueKeys(k) ==> UniqueKeys(l))
  {
    var l := Happen(unique, k, e);
    HappenKeepsGroups(unique, k, e);
    if e.Fork? {
      ForkLater(unique, k, e.pid, e.parent);
    } else if e.Gone? {
      if l != k {
        GoneIsLater(k, e.pid);
      }
    } else if !e.Tick? && l != k {
      assert e.pid in k.table && l == k.(table := k.table[e.pid := l.table[e.pid]]);
      ChangeIsLater(k, e.pid, l.table[e.pid]);
    }
  }

  lemma LaterTrans(a: Kernel, b: Kernel, c: Kernel)
    requires Consistent(a) && Later(a, b) && Later(b, c)
    ensures Later(a, c)
  {
  }

  lemma SignalIsLater(a: Kernel, b: Kernel, instance: nat)
    requires Consistent(b) && Later(a, b)
    ensures var c := b.(signalled := b.signalled + [instance]); Consistent(c) && Later(a, c)
  {
  }

  lemma {:induction false} HappenAllLater(unique: bool, k: Kernel, events: seq<Event>)
    requires Consistent(k)
    ensures var l := HappenAll(unique, k, events);
            Consistent(l) && Later(k, l) && k.signalled == l.signalled && (unique && UniqueKeys(k) ==> UniqueKeys(l))
    decreases |events|
  {
    if events != [] {
      var m := Happen(unique, k, events[0]);
      HappenLater(unique, k, events[0]);
      HappenAllLater(unique, m, events[1..]);
      LaterTrans(k, m, HappenAll(unique, m, events[1..]));
    }
  }

  /** If a process is seen with a key that was known earlier, then it held the pid all the time. */
  lemma SameProcess(k: Kernel, l: Kernel, key: Key, target: nat)
    requires Later(k, l) && Consistent(l) && UniqueKeys(l)
    requires target < |k.born| && k.born[target] == key
    requires key.pid in l.table && l.table[key.pid].key == key
    ensures key.pid in k.table && k.table[key.pid].instance == l.table[key.pid].instance == target
  {
    var n := l.table[key.pid].instance;
    assert l.born[n] == l.born[target];
  }

  datatype Outcome = Sent | Skipped | Failed

  /** One turn of the loop of `signal_identities`; `pauses` is what happens before each of its
      four system calls. `refused` are the instances that reject the signal with an error. */
  function SignalOne(unique: bool, refused: set<nat>, k: Kernel, key: Key, pauses: seq<seq<Event>>): (Kernel, Outcome)
    requires |pauses| == 4
  {
    var k0 := HappenAll(unique, k, pauses[0]);
    if key.pid !in k0.table || k0.table[key.pid].key != key then (k0, Skipped)
    else
      var k1 := HappenAll(unique, k0, pauses[1]);
      if key.pid !in k1.table then (k1, Failed)
      else ConfirmAndSend(unique, refused, k1, key, k1.table[key.pid].instance, pauses[2], pauses[3])
  }

  /** The second half: read the key again through the pid, then send through the pidfd. */
  function ConfirmAndSend(unique: bool, refused: set<nat>, k: Kernel, key: Key, pidfd: nat,
                          before: seq<Event>, between: seq<Event>): (Kernel, Outcome)
  {
    var k2 := HappenAll(unique, k, before);
    if key.pid !in k2.table || k2.table[key.pid].key != key then (k2, Skipped)
    else
      var k3 := HappenAll(unique, k2, between);
      if !Running(k3, pidfd) then (k3, Skipped)
      else if pidfd in refused then (k3, Failed)
      else (k3.(signalled := k3.signalled + [pidfd]), Sent)
  }

  /** A pidfd keeps naming the instance it was opened on. */
  predicate Running(k: Kernel, instance: nat) {
    exists pid <- k.table :: k.table[pid].instance == instance
  }

  lemma ConfirmedIsTheTarget(refused: set<nat>, k: Kernel, key: Key, target: nat, before: seq<Event>, between: seq<Event>)
    requires Consistent(k) && UniqueKeys(k) && target < |k.born| && k.born[target] == key && key.pid in k.table
    ensures var r := ConfirmAndSend(true, refused, k, key, k.table[key.pid].instance, before, between);
            r.0.signalled == k.signalled + if r.1 == Sent then [target] else []
  {
    var k2 := HappenAll(true, k, before);
    HappenAllLater(true, k, before);
    HappenAllLater(true, k2, between);
    if key.pid in k2.table && k2.table[key.pid].key == key {
      SameProcess(k, k2, key, target);
    }
  }

  /** Whatever happens between the calls, the process that receives the signal is `target`, the
      one whose key was scanned, and never a later process with the same pid. */
  lemma SignalOneHitsItsTarget(refused: set<nat>, k: Kernel, key: Key, target: nat, pauses: seq<seq<Event>>)
    requires |pauses| == 4 && Consistent(k) && UniqueKeys(k)
    requires target < |k.born| && k.born[target] == key
    ensures var r := SignalOne(true, refused, k, key, pauses);
            r.0.signalled == k.signalled + if r.1 == Sent then [target] else []
  {
    var k0 := HappenAll(true, k, pauses[0]);
    HappenAllLater(true, k, pauses[0]);
    var k1 := HappenAll(true, k0, pauses[1]);
    HappenAllLater(true, k0, pauses[1]);
    if key.pid in k1.table {
      ConfirmedIsTheTarget(refused, k1, key, target, pauses[2], pauses[3]);
    }
  }

  /** Without unique start times the rule fails: a process that takes the pid within the same
      clock tick passes both checks and is signalled in place of the one that was scanned. */
  lemma SameTickReuseMisleads()
    ensures var key := Key(7, 3);
            var k := Kernel(1, true, map[7 := Process(0, key, 2, Group(0, 7), false)], [key], 3, [], []);
            var pauses := [[], [Gone(7), Fork(7, 2)], [], []];
            Consistent(k) && UniqueKeys(k)
            && SignalOne(false, {}, k, key, pauses).0.signalled == [1]
  {
    var key := Key(7, 3);
    var k := Kernel(1, true, map[7 := Process(0, key, 2, Group(0, 7), false)], [key], 3, [], []);
    var gone := Happen(false, k, Gone(7));
    var forked := Happen(false, gone, Fork(7, 2));
    assert HappenAll(false, gone, [Fork(7, 2)]) == forked;
    assert [Gone(7), Fork(7, 2)][1..] == [Fork(7, 2)];
    assert HappenAll(false, k, [Gone(7), Fork(7, 2)]) == forked;
    assert Running(forked, 1) by {
      assert 7 in forked.table;
    }
  }

  /** The supervisor's host: a kernel, and what other processes will do before each system call
      the supervisor makes. After the end of the schedule nothing more happens. */
  class Host {
    const refused: set<nat>
    var kernel: Kernel
    var schedule: seq<seq<Event>>
    var listings: seq<seq<nat>>   // what the coming scans of the process directory list
    var faults: seq<bool>         // which of the coming fallible steps fail
    var turns: seq<nat>           // how many turns the coming loops have before their deadline

    constructor (kernel: Kernel, schedule: seq<seq<Event>>, refused: set<nat>, listings: seq<seq<nat>>,
                 faults: seq<bool>, turns: seq<nat>)
      ensures this.kernel == kernel && this.schedule == schedule && this.refused == refused
      ensures this.listings == listings && this.faults == faults && this.turns == turns
    {
      this.kernel, this.schedule, this.refused := kernel, schedule, refused;
      this.listings, this.faults, this.turns := listings, faults, turns;
    }

    ghost predicate Valid()
      reads this
    {
      Consistent(kernel) && UniqueKeys(kernel)
    }

    /** What other processes do before the next system call. */
    method Interleave() returns (ghost happened: seq<Event>)
      requires Valid()
      modifies this`kernel, this`schedule
      ensures kernel == HappenAll(true, old(kernel), happened)
      ensures Valid() && Later(old(kernel), kernel) && kernel.signalled == old(kernel.signalled)
      ensures happened == (if old(schedule) == [] then [] else old(schedule)[0])
      ensures old(schedule) == [] ==> schedule == []
    {
      happened := [];
      if schedule != [] {
        happened := schedule[0];
        HappenAllLater(true, kernel, schedule[0]);
        kernel := HappenAll(true, kernel, schedule[0]);
        schedule := schedule[1..];
      }
    }

    /** `read_process_identity` */
    method ReadIdentity(pid: nat) returns (found: Option<Identity>, ghost happened: seq<Event>)
      requires Valid()
      modifies this
      ensures kernel == HappenAll(true, old(kernel), happened)
      ensures Valid() && Later(old(kernel), kernel) && kernel.signalled == old(kernel.signalled)
      ensures old(schedule) == [] ==> happened == [] && schedule == []
      ensures found == if pid in kernel.table
                       then Some(Identity(kernel.table[pid].key, kernel.table[pid].parent)) else None
    {
      happened := Interleave();
      if pid in kernel.table {
        found := Some(Identity(kernel.table[pid].key, kernel.table[pid].parent));
      } else {
        found := None;
      }
    }

    method PidfdOpen(pid: nat) returns (pidfd: Option<nat>, ghost happened: seq<Event>)
      requires Valid()
      modifies this
      ensures kernel == HappenAll(true, old(kernel), happened)
      ensures Valid() && Later(old(kernel), kernel) && kernel.signalled == old(kernel.signalled)
      ensures old(schedule) == [] ==> happened == [] && schedule == []
      ensures pidfd == if pid in kernel.table then Some(kernel.table[pid].instance) else None
    {
      happened := Interleave();
      pidfd := if pid in kernel.table then Some(kernel.table[pid].instance) else None;
    }

    method PidfdSend(pidfd: nat) returns (outcome: Outcome, ghost happened: seq<Event>)
      requires Valid()
      modifies this
      ensures Valid() && Later(old(kernel), kernel)
      ensures var k := HappenAll(true, old(kernel), happened);
              && old(kernel.born) <= k.born
              && outcome == (if !Running(k, pidfd) then Skipped else if pidfd in refused then Failed else Sent)
              && kernel == if outcome == Sent then k.(signalled := k.signalled + [pidfd]) else k
      ensures old(schedule) == [] ==> happened == [] && schedule == []
    {
      happened := Interleave();
      if !Running(kernel, pidfd) {
        return Skipped, happened;
      }
      if pidfd in refused {
        return Failed, happened;
      }
      SignalIsLater(old(kernel), kernel, pidfd);
      kernel := kernel.(signalled := kernel.signalled + [pidfd]);
      return Sent, happened;
    }

    method NextListing() returns (listing: seq<nat>)
      modifies this`listings
    {
      listing := [];
      if listings != [] {
        listing, listings := listings[0], listings[1..];
      }
    }

    method NextTurns() returns (count: nat)
      modifies this`turns
    {
      count := 0;
      if turns != [] {
        count, turns := turns[0], turns[1..];
      }
    }

    /** A step outside this model that can fail. */
    method Fails() returns (failed: bool)
      modifies this`faults
      ensures failed == (old(faults) != [] && old(faults)[0])
    {
      failed := false;
      if faults != [] {
        failed, faults := faults[0], faults[1..];
      }
    }

    /** `kill(-number)`: every process of the group; `at` is the kernel at that moment. */
    method KillGroup(number: nat) returns (ghost at: Kernel)
      requires Valid()
      modifies this`kernel, this`schedule
      ensures Valid() && Later(old(kernel), at) && Consistent(at)
      ensures kernel == at.(deeds := at.deeds + [KillNumber(GroupMembers(at, number))])
      ensures at == HappenAll(true, old(kernel), if old(schedule) == [] then [] else old(schedule)[0])
    {
      var _ := Interleave();
      at := kernel;
      kernel := kernel.(deeds := kernel.deeds + [KillNumber(GroupMembers(kernel, number))]);
    }

    /** `kill(pid)`: whoever has the number. */
    method KillProcess(pid: nat) returns (ghost at: Kernel)
      requires Valid()
      modifies this`kernel, this`schedule
      ensures Valid() && Later(old(kernel), at) && Consistent(at)
      ensures kernel == at.(deeds := at.deeds + [KillNumber(ProcessMembers(at, pid))])
    {
      var _ := Interleave();
      at := kernel;
      kernel := kernel.(deeds := kernel.deeds + [KillNumber(ProcessMembers(kernel, pid))]);
    }

    /** `waitpid(pid, WNOHANG)`: reaps an exited child. */
    method WaitNoHang(pid: nat) returns (ghost at: Kernel)
      requires Valid()
      modifies this`kernel, this`schedule
      ensures Valid() && Later(old(kernel), at) && Consistent(at)
      ensures kernel == if IsChild(at, pid) && at.table[pid].exited then Reap(at, pid) else at
    {
      var _ := Interleave();
      at := kernel;
      if IsChild(kernel, pid) && kernel.table[pid].exited {
        kernel := Reap(kernel, pid);
      }
    }

    /** `waitpid(pid, 0)`: the exit of the child that ends the wait is part of it. */
    method WaitBlocking(pid: nat) returns (result: Waited, ghost at: Kernel)
      requires Valid()
      modifies this`kernel, this`schedule, this`faults
      ensures Valid() && Later(old(kernel), at) && Consistent(at)
      ensures result.Broken? ==> kernel == at.(deeds := at.deeds + [WaitFailed])
      ensures result.AlreadyGone? ==> !IsChild(at, pid) && kernel == at.(deeds := at.deeds + [NoChild])
      ensures result.Returned? ==> IsChild(at, pid) && kernel == Reap(at, pid)
    {
      var _ := Interleave();
      at := kernel;
      var failed := Fails();
      if failed {
        kernel := kernel.(deeds := kernel.deeds + [WaitFailed]);
        return Broken, at;
      }
      if !IsChild(kernel, pid) {
        kernel := kernel.(deeds := kernel.deeds + [NoChild]);
        return AlreadyGone, at;
      }
      kernel := Reap(kernel, pid);
      result := Returned;
    }
  }

  datatype Waited = Returned | AlreadyGone | Broken

  function GroupMembers(k: Kernel, number: nat): set<Member> {
    set pid <- k.table | k.table[pid].group.number == number :: Member(k.table[pid].instance, k.table[pid].group)
  }

  function ProcessMembers(k: Kernel, pid: nat): set<Member> {
    if pid in k.table then {Member(k.table[pid].instance, k.table[pid].group)} else {}
  }

  function Reap(k: Kernel, pid: nat): Kernel
    requires pid in k.table
  {
    k.(table := k.table - {pid}, deeds := k.deeds + [Reaped(k.table[pid].instance)])
  }

  /** Every signal sent since `from` reached a process that was born before and whose key is
      among `keys`. */
  ghost predicate OnlyTargets(from: Kernel, to: Kernel, keys: set<Key>) {
    && from.born <= to.born && from.signalled <= to.signalled
    && forall n | |from.signalled| <= n < |to.signalled| ::
         to.signalled[n] < |from.born| && from.born[to.signalled[n]] in keys
  }

  predicate Present(k: Kernel, key: Key) {
    key.pid in k.table && k.table[key.pid].key == key
  }

  /** Every process of `keys` that is there has been sent the signal since `from`. */
  ghost predicate AllReached(from: Kernel, to: Kernel, keys: set<Key>) {
    |from.signalled| <= |to.signalled|
    && forall key <- keys :: Present(from, key) ==> from.table[key.pid].instance in to.signalled[|from.signalled|..]
  }

  /** Undisturbed, a present process that takes the signal gets it. */
  lemma CalmSignalArrives(k: Kernel, key: Key)
    ensures SignalOne(true, {}, k, key, [[], [], [], []])
         == (AfterSignal(k, key), if Present(k, key) then Sent else Skipped)
  {
    if Present(k, key) {
      assert Running(k, k.table[key.pid].instance);
    }
  }

  /** `process_snapshot`: one entry of the process directory after the other. */
  method ProcessSnapshot(host: Host, listing: seq<nat>) returns (identities: seq<Identity>)
    requires host.Valid()
    modifies host
    ensures host.Valid() && Later(old(host.kernel), host.kernel)
    ensures host.kernel.signalled == old(host.kernel.signalled)
    ensures forall i <- identities :: i.key in host.kernel.born
    ensures old(host.schedule) == [] ==>
              && host.schedule == [] && host.kernel == old(host.kernel)
              && (forall i <- identities :: Present(host.kernel, i.key))
              && forall pid <- listing :: pid in host.kernel.table ==>
                   Identity(host.kernel.table[pid].key, host.kernel.table[pid].parent) in identities
  {
    identities := [];
    for n := 0 to |listing|
      invariant host.Valid() && Later(old(host.kernel), host.kernel)
      invariant host.kernel.signalled == old(host.kernel.signalled)
      invariant forall i <- identities :: i.key in host.kernel.born
      invariant old(host.schedule) == [] ==>
                  && host.schedule == [] && host.kernel == old(host.kernel)
                  && (forall i <- identities :: Present(host.kernel, i.key))
                  && forall pid <- listing[..n] :: pid in host.kernel.table ==>
                       Identity(host.kernel.table[pid].key, host.kernel.table[pid].parent) in identities
    {
      assert listing[..n + 1] == listing[..n] + [listing[n]];
      ghost var before := host.kernel;
      var found, _ := host.ReadIdentity(listing[n]);
      LaterTrans(old(host.kernel), before, host.kernel);
      if found.Some? {
        identities := identities + [found.value];
      }
    }
    assert listing[..|listing|] == listing;
  }

  method ConfirmAndSignal(host: Host, key: Key, pidfd: nat)
    returns (outcome: Outcome, ghost before: seq<Event>, ghost between: seq<Event>)
    requires host.Valid()
    modifies host
    ensures host.Valid() && Later(old(host.kernel), host.kernel)
    ensures (host.kernel, outcome) == ConfirmAndSend(true, host.refused, old(host.kernel), key, pidfd, before, between)
    ensures old(host.schedule) == [] ==> before == between == [] && host.schedule == []
  {
    between := [];
    ghost var start := host.kernel;
    var again;
    again, before := host.ReadIdentity(key.pid);
    if again.None? || again.value.key != key {
      return Skipped, before, between;
    }
    ghost var read := host.kernel;
    outcome, between := host.PidfdSend(pidfd);
    LaterTrans(start, read, host.kernel);
  }

  /** One identity: read, compare, open, read again, compare, send. */
  method SignalIdentity(host: Host, key: Key) returns (outcome: Outcome, ghost pauses: seq<seq<Event>>)
    requires host.Valid()
    modifies host
    ensures host.Valid() && Later(old(host.kernel), host.kernel)
    ensures |pauses| == 4 && (host.kernel, outcome) == SignalOne(true, host.refused, old(host.kernel), key, pauses)
    ensures old(host.schedule) == [] ==> pauses == [[], [], [], []] && host.schedule == []
  {
    var current, p0 := host.ReadIdentity(key.pid);
    pauses := [p0, [], [], []];
    if current.None? || current.value.key != key {
      return Skipped, pauses;
    }
    ghost var read := host.kernel;
    var pidfd, p1 := host.PidfdOpen(key.pid);
    LaterTrans(old(host.kernel), read, host.kernel);
    pauses := [p0, p1, [], []];
    if pidfd.None? {
      return Failed, pauses;
    }
    ghost var named := host.kernel;
    var sent, p2, p3 := ConfirmAndSignal(host, key, pidfd.value);
    LaterTrans(old(host.kernel), named, host.kernel);
    return sent, [p0, p1, p2, p3];
  }

  /** One turn of the loop, for an identity known since `from`. */
  method SignalNext(host: Host, key: Key, ghost from: Kernel, ghost keys: set<Key>) returns (outcome: Outcome)
    requires host.Valid() && OnlyTargets(from, host.kernel, keys) && key in keys && key in from.born
    modifies host
    ensures host.Valid() && OnlyTargets(from, host.kernel, keys) && Later(old(host.kernel), host.kernel)
    ensures |host.kernel.signalled| == |old(host.kernel.signalled)| + if outcome == Sent then 1 else 0
    ensures old(host.schedule) == [] ==> host.schedule == []
    ensures old(host.schedule) == [] && host.refused == {} ==>
              outcome != Failed && host.kernel == AfterSignal(old(host.kernel), key)
  {
    ghost var target: nat :| target < |from.born| && from.born[target] == key;
    ghost var before := host.kernel;
    ghost var pauses;
    outcome, pauses := SignalIdentity(host, key);
    SignalOneHitsItsTarget(host.refused, before, key, target, pauses);
    CalmSignalArrives(before, key);
  }

  function AfterSignal(k: Kernel, key: Key): Kernel {
    if Present(k, key) then k.(signalled := k.signalled + [k.table[key.pid].instance]) else k
  }

  /** `signal_identities`: highest pid first; an error ends the loop. */
  method SignalIdentities(host: Host, identities: seq<Identity>) returns (delivered: Option<bool>)
    requires host.Valid() && forall i <- identities :: i.key in host.kernel.born
    modifies host
    ensures host.Valid() && Later(old(host.kernel), host.kernel)
    ensures OnlyTargets(old(host.kernel), host.kernel, set i <- identities :: i.key)
    ensures delivered.Some? ==>
              (delivered.value <==> |host.kernel.signalled| > |old(host.kernel.signalled)|)
    ensures old(host.schedule) == [] && host.refused == {} ==>
              delivered.Some? && AllReached(old(host.kernel), host.kernel, set i <- identities :: i.key)
  {
    ghost var keys := set i <- identities :: i.key;
    ghost var from := host.kernel;
    var any := false;
    var n := |identities|;
    while n != 0
      invariant 0 <= n <= |identities|
      invariant host.Valid() && OnlyTargets(from, host.kernel, keys) && Later(from, host.kernel)
      invariant any <==> |host.kernel.signalled| > |from.signalled|
      invariant old(host.schedule) == [] ==> host.schedule == []
      invariant old(host.schedule) == [] && host.refused == {} ==>
                  && host.kernel.table == from.table
                  && AllReached(from, host.kernel, set i <- identities[n..] :: i.key)
    {
      n := n - 1;
      var key := identities[n].key;
      assert identities[n] in identities;
      ghost var before := host.kernel;
      var outcome := SignalNext(host, key, from, keys);
      LaterTrans(from, before, host.kernel);
      if old(host.schedule) == [] && host.refused == {} {
        OneMoreReached(from, before, host.kernel, identities, n);
      }
      if outcome == Failed {
        return None;
      }
      any := any || outcome == Sent;
    }
    return Some(any);
  }

  lemma OneMoreReached(from: Kernel, before: Kernel, after: Kernel, identities: seq<Identity>, n: nat)
    requires n < |identities| && before.table == from.table
    requires AllReached(from, before, set i <- identities[n + 1..] :: i.key)
    requires after == AfterSignal(before, identities[n].key)
    ensures AllReached(from, after, set i <- identities[n..] :: i.key)
  {
    assert identities[n..] == [identities[n]] + identities[n + 1..];
    forall i <- identities[n..] | Present(from, i.key)
      ensures from.table[i.key.pid].instance in after.signalled[|from.signalled|..]
    {
      if i == identities[n] {
        assert after.signalled[|from.signalled|..] == before.signalled[|from.signalled|..] + [from.table[i.key.pid].instance];
      } else {
        assert i in identities[n + 1..];
        assert before.signalled[|from.signalled|..] <= after.signalled[|from.signalled|..];
      }
    }
  }

  /** `signal_supervised_tree`: the scan, the closure over it, and the signals. Only processes of
      the closure that were running at the end of the scan are ever signalled. */
  method SignalSupervisedTree(host: Host, listing: seq<nat>, supervisor: nat, leader: Option<nat>, excluded: set<Key>)
    returns (delivered: Option<bool>, snapshot: seq<Identity>, accepted: set<nat>, ghost scanned: Kernel)
    requires host.Valid()
    modifies host
    ensures host.Valid() && Later(old(host.kernel), host.kernel)
    ensures LeastClosed(snapshot, supervisor, leader, excluded, accepted)
    ensures old(host.kernel.born) <= scanned.born && scanned.signalled == old(host.kernel.signalled)
    ensures OnlyTargets(scanned, host.kernel, set i <- snapshot | i.key.pid in accepted :: i.key)
    ensures old(host.schedule) == [] && host.refused == {} ==>
              delivered.Some? && AllReached(old(host.kernel), host.kernel, set i <- snapshot | i.key.pid in accepted :: i.key)
  {
    snapshot := ProcessSnapshot(host, listing);
    scanned := host.kernel;
    var supervised;
    supervised, accepted := SupervisedFromSnapshot(snapshot, supervisor, leader, excluded);
    delivered := SignalIdentities(host, supervised);
    assert (set i <- supervised :: i.key) <= (set i <- snapshot | i.key.pid in accepted :: i.key);
    if old(host.schedule) == [] {
      forall i <- snapshot | i.key.pid in accepted ensures i.key in set j <- supervised :: j.key {
        var k :| 0 <= k < |supervised| && supervised[k].key.pid == i.key.pid;
        assert supervised[k] in supervised && Present(scanned, supervised[k].key) && Present(scanned, i.key);
      }
    }
  }
}
