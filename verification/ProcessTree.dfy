/**
 The supervised part of a process snapshot: the closure over the child relation that
 `supervised_processes_from_snapshot` computes.
 */
module ProcessTree {
  import opened Options

  datatype Key = Key(pid: nat, startTicks: nat)

  datatype Identity = Identity(key: Key, parent: nat)

  ghost predicate Seed(i: Identity, supervisor: nat, leader: Option<nat>, excluded: set<Key>) {
    leader == Some(i.key.pid) || (i.parent == supervisor && i.key !in excluded)
  }

  /** `pids` holds the seeds and with every pid the pids of its children. */
  ghost predicate Closed(snapshot: seq<Identity>, supervisor: nat, leader: Option<nat>, excluded: set<Key>, pids: set<nat>) {
    forall i <- snapshot :: Seed(i, supervisor, leader, excluded) || i.parent in pids ==> i.key.pid in pids
  }

  ghost predicate LeastClosed(snapshot: seq<Identity>, supervisor: nat, leader: Option<nat>, excluded: set<Key>, pids: set<nat>) {
    && Closed(snapshot, supervisor, leader, excluded, pids)
    && forall other: set<nat> :: Closed(snapshot, supervisor, leader, excluded, other) ==> pids <= other
  }

  function Pids(snapshot: seq<Identity>): set<nat> {
    set i <- snapshot :: i.key.pid
  }

  /** The entry that the index by pid keeps: the last one of the snapshot with this pid. */
  function ByPid(snapshot: seq<Identity>, pid: nat): (i: Identity)
    requires pid in Pids(snapshot)
    ensures i in snapshot && i.key.pid == pid
  {
    if snapshot[|snapshot| - 1].key.pid == pid then snapshot[|snapshot| - 1]
    else
      assert forall i <- snapshot :: i in snapshot[..|snapshot| - 1] || i == snapshot[|snapshot| - 1];
      ByPid(snapshot[..|snapshot| - 1], pid)
  }

  /** The two loops: the seeds first, then passes over the snapshot until one adds nothing. */
  method AcceptedPids(snapshot: seq<Identity>, supervisor: nat, leader: Option<nat>, excluded: set<Key>)
    returns (accepted: set<nat>)
    ensures accepted <= Pids(snapshot)
    ensures LeastClosed(snapshot, supervisor, leader, excluded, accepted)
  {
    accepted := {};
    for n := 0 to |snapshot|
      invariant accepted <= Pids(snapshot)
      invariant forall other: set<nat> :: Closed(snapshot, supervisor, leader, excluded, other) ==> accepted <= other
      invariant forall m | 0 <= m < n :: Seed(snapshot[m], supervisor, leader, excluded) ==> snapshot[m].key.pid in accepted
    {
      var i := snapshot[n];
      if leader == Some(i.key.pid) || (i.parent == supervisor && i.key !in excluded) {
        accepted := accepted + {i.key.pid};
      }
    }
    var grew := true;
    while grew
      invariant accepted <= Pids(snapshot)
      invariant forall other: set<nat> :: Closed(snapshot, supervisor, leader, excluded, other) ==> accepted <= other
      invariant forall i <- snapshot :: Seed(i, supervisor, leader, excluded) ==> i.key.pid in accepted
      invariant !grew ==> Closed(snapshot, supervisor, leader, excluded, accepted)
      decreases Pids(snapshot) - accepted, grew
    {
      var before := accepted;
      for n := 0 to |snapshot|
        invariant before <= accepted <= Pids(snapshot)
        invariant forall other: set<nat> :: Closed(snapshot, supervisor, leader, excluded, other) ==> accepted <= other
        invariant forall m | 0 <= m < n :: snapshot[m].parent in before ==> snapshot[m].key.pid in accepted
      {
        if snapshot[n].parent in accepted {
          accepted := accepted + {snapshot[n].key.pid};
        }
      }
      grew := accepted != before;
    }
  }

  /** Iteration over an ordered set. */
  method Ascending(pids: set<nat>) returns (order: seq<nat>)
    ensures forall i, j | 0 <= i < j < |order| :: order[i] < order[j]
    ensures forall pid :: pid in order <==> pid in pids
  {
    var left := pids;
    order := [];
    while left != {}
      invariant left <= pids
      invariant forall i, j | 0 <= i < j < |order| :: order[i] < order[j]
      invariant forall i | 0 <= i < |order| :: forall pid <- left :: order[i] < pid
      invariant forall pid :: pid in order <==> pid in pids && pid !in left
    {
      ghost var first := LeastElement(left);
      assert first in left;
      var least :| least in left && forall other <- left :: least <= other;
      order := order + [least];
      left := left - {least};
    }
  }

  /** The identities of the accepted pids, in the order of the ordered set. */
  method SupervisedFromSnapshot(snapshot: seq<Identity>, supervisor: nat, leader: Option<nat>, excluded: set<Key>)
    returns (supervised: seq<Identity>, accepted: set<nat>)
    ensures accepted <= Pids(snapshot) && LeastClosed(snapshot, supervisor, leader, excluded, accepted)
    ensures forall i, j | 0 <= i < j < |supervised| :: supervised[i].key.pid < supervised[j].key.pid
    ensures forall i <- supervised :: i.key.pid in accepted && i == ByPid(snapshot, i.key.pid)
    ensures forall pid <- accepted :: exists k :: 0 <= k < |supervised| && supervised[k].key.pid == pid
  {
    accepted := AcceptedPids(snapshot, supervisor, leader, excluded);
    var order := Ascending(accepted);
    assert forall k | 0 <= k < |order| :: order[k] in order;
    supervised := seq(|order|, k requires 0 <= k < |order| => ByPid(snapshot, order[k]));
    forall pid | pid in accepted ensures exists k :: 0 <= k < |supervised| && supervised[k].key.pid == pid {
      assert pid in order;
      var k :| 0 <= k < |order| && order[k] == pid;
      assert supervised[k].key.pid == pid;
    }
  }

  lemma {:induction false} LeastElement(s: set<nat>) returns (least: nat)
    requires s != {}
    ensures least in s && forall other <- s :: least <= other
  {
    var x :| x in s;
    var rest := s - {x};
    assert s == rest + {x};
    if rest == {} {
      least := x;
    } else {
      var y := LeastElement(rest);
      least := if x < y then x else y;
    }
  }

  // ----- Exclusion

  /** A parent relation without cycles: a rank grows from parent to child. */
  ghost predicate Acyclic(snapshot: seq<Identity>, rank: nat -> int) {
    forall i <- snapshot :: rank(i.parent) < rank(i.key.pid)
  }

  /** `hidden` hangs below the supervisor through excluded children only: its members are no
      seeds, and each has its parent in `hidden` or is a direct child of the supervisor. */
  ghost predicate OnlyThroughExcluded(snapshot: seq<Identity>, supervisor: nat, leader: Option<nat>, excluded: set<Key>,
                                      hidden: set<nat>)
  {
    forall i <- snapshot :: i.key.pid in hidden ==>
      !Seed(i, supervisor, leader, excluded) && (i.parent in hidden || i.parent == supervisor)
  }

  /** In an acyclic tree whose leader is a child of the supervisor, the supervisor is not accepted
      and neither is any excluded child or any process that is reached only through one. */
  lemma ExcludedStayOut(snapshot: seq<Identity>, supervisor: nat, leader: Option<nat>, excluded: set<Key>,
                        accepted: set<nat>, hidden: set<nat>, rank: nat -> int)
    requires LeastClosed(snapshot, supervisor, leader, excluded, accepted)
    requires Acyclic(snapshot, rank)
    requires forall i <- snapshot :: leader == Some(i.key.pid) ==> i.parent == supervisor
    requires OnlyThroughExcluded(snapshot, supervisor, leader, excluded, hidden)
    ensures supervisor !in accepted && accepted !! hidden
  {
    var below := set i <- snapshot | rank(i.key.pid) > rank(supervisor) && i.key.pid !in hidden :: i.key.pid;
    forall i <- snapshot | Seed(i, supervisor, leader, excluded) || i.parent in below ensures i.key.pid in below {
      assert i.parent == supervisor || i.parent in below;
      assert rank(i.parent) < rank(i.key.pid);
    }
    assert Closed(snapshot, supervisor, leader, excluded, below);
  }

  /** The rule is exact: where the supervisor stays out, an excluded child is accepted if and only
      if its pid is the leader's or it is accepted through another entry with the same pid. */
  lemma ExcludedChildIffLeader(snapshot: seq<Identity>, supervisor: nat, leader: Option<nat>, excluded: set<Key>,
                               accepted: set<nat>, child: Identity)
    requires LeastClosed(snapshot, supervisor, leader, excluded, accepted)
    requires supervisor !in accepted && child in snapshot && child.parent == supervisor && child.key in excluded
    requires forall i <- snapshot :: i.key.pid == child.key.pid ==> i == child
    ensures child.key.pid in accepted <==> leader == Some(child.key.pid)
  {
    if leader != Some(child.key.pid) {
      assert Closed(snapshot, supervisor, leader, excluded, accepted - {child.key.pid});
    } else {
      assert Seed(child, supervisor, leader, excluded);
    }
  }
}
