/**
 The closing of every inherited descriptor that the workload may not keep, in ranges between the
 retained ones.
 */
module DescriptorSweep {

  const FIRST: nat := 3
  const LAST: nat := 0xFFFF_FFFF

  /** The open descriptors; a range is closed in one call, which may be refused. */
  class Descriptors {
    var descriptors: set<nat>
    var refusals: seq<bool>   // which of the coming calls fail

    constructor (descriptors: set<nat>, refusals: seq<bool>)
      ensures this.descriptors == descriptors && this.refusals == refusals
    {
      this.descriptors, this.refusals := descriptors, refusals;
    }

    method CloseRange(first: nat, last: nat) returns (ok: bool)
      modifies this
      ensures descriptors == if ok then set d <- old(descriptors) | !(first <= d <= last) else old(descriptors)
      ensures old(refusals) == [] ==> ok && refusals == []
    {
      ok := refusals == [] || !refusals[0];
      if refusals != [] {
        refusals := refusals[1..];
      }
      if ok {
        descriptors := set d <- descriptors | !(first <= d <= last);
      }
    }
  }

  ghost predicate Ascending(retained: seq<nat>) {
    forall i, j | 0 <= i < j < |retained| :: retained[i] < retained[j]
  }

  /** What may stay open: the standard streams, the retained ones, and what no call reaches. */
  predicate Stays(d: nat, retained: seq<nat>) {
    d < FIRST || d in retained || d > LAST
  }

  /** `close_all_except`, on a sorted list without repetitions: after success exactly the standard
      streams and the retained descriptors are open; a refused call closes nothing that stays. */
  method CloseAllExcept(table: Descriptors, retained: seq<nat>) returns (ok: bool)
    requires Ascending(retained) && forall d <- retained :: d < LAST
    modifies table
    ensures ok ==> table.descriptors == set d <- old(table.descriptors) | Stays(d, retained)
    ensures !ok ==> (set d <- old(table.descriptors) | Stays(d, retained)) <= table.descriptors <= old(table.descriptors)
    ensures old(table.refusals) == [] ==> ok
  {
    var first := FIRST;
    for n := 0 to |retained|
      invariant FIRST <= first <= LAST
      invariant forall m | 0 <= m < n :: retained[m] < first
      invariant forall m | n <= m < |retained| :: retained[m] < FIRST || first <= retained[m]
      invariant table.descriptors == set d <- old(table.descriptors) | Stays(d, retained) || first <= d
      invariant old(table.refusals) == [] ==> table.refusals == []
    {
      var descriptor := retained[n];
      assert descriptor in retained;
      if descriptor < FIRST {
        continue;
      }
      if first < descriptor {
        ok := table.CloseRange(first, descriptor - 1);
        if !ok {
          return;
        }
      }
      first := descriptor + 1;
    }
    ok := table.CloseRange(first, LAST);
  }
}
