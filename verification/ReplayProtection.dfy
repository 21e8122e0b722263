/**
 At-most-once plans of the privileged helper: the expiry rule of a request, the marker that
 consuming a plan leaves in the spool, and the pruning of old markers by age.
 */
module ReplayProtection {
  import opened Options

  const MILLISECOND: nat := 1_000_000            // in nanoseconds
  const RETENTION: nat := 120_000 * MILLISECOND  // REPLAY_RETENTION
  const TTL_MILLISECONDS: nat := 120_000         // MAX_HELPER_PLAN_TTL_MILLISECONDS
  const MAX_TRACKED_PLANS: nat := 4096

  type Plan = nat

  datatype Request = Request(plan: Plan, expires: nat)

  /** `markers` maps a consumed plan to its marker's modification time. */
  datatype Helper = Helper(markers: map<Plan, nat>, clock: nat, executed: seq<Request>)

  /** One connection of the sequential listener, or a restart of the helper. `arrival`, `delay` and
      `more` are how far the clock moves before the accept, the prune and the consume. The listings
      are whatever the directory scans return. A new marker's time lags the clock by `lag`. */
  datatype Visit =
    | Connection(arrival: nat, request: Request, admitted: bool, delay: nat, listing: seq<Plan>, spaceOk: bool,
                 more: nat, lag: nat)
    | Restart(arrival: nat, listing: seq<Plan>)

  datatype Pruned = Active(count: nat) | AlreadyConsumed | Overflow | ClockTooEarly

  /** The expiry rule of `validate_request`, on the clock read at the accept. */
  predicate Fresh(request: Request, clock: nat) {
    var now := clock / MILLISECOND;
    request.expires > now && request.expires - now <= TTL_MILLISECONDS
  }

  /** The scan of `prune_replay_markers` over the rest of a listing. */
  function Scan(markers: map<Plan, nat>, cutoff: nat, preserve: Option<Plan>, listing: seq<Plan>, active: nat)
    : (map<Plan, nat>, Pruned)
    decreases |listing|
  {
    if listing == [] then (markers, Active(active))
    else
      var plan, rest := listing[0], listing[1..];
      if plan !in markers then Scan(markers, cutoff, preserve, rest, active)
      else if preserve == Some(plan) then (markers, AlreadyConsumed)
      else if markers[plan] <= cutoff then Scan(markers - {plan}, cutoff, preserve, rest, active)
      else if active + 1 > MAX_TRACKED_PLANS then (markers, Overflow)
      else Scan(markers, cutoff, preserve, rest, active + 1)
  }

  function Prune(markers: map<Plan, nat>, clock: nat, preserve: Option<Plan>, listing: seq<Plan>): (map<Plan, nat>, Pruned) {
    if clock < RETENTION then (markers, ClockTooEarly)
    else Scan(markers, clock - RETENTION, preserve, listing, 0)
  }

  function Minus(clock: nat, lag: nat): nat {
    if lag <= clock then clock - lag else 0
  }

  function Serve(h: Helper, v: Visit): Helper {
    match v
    case Restart(arrival, listing) =>
      var h1 := h.(clock := h.clock + arrival);
      h1.(markers := Prune(h1.markers, h1.clock, None, listing).0)
    case Connection(arrival, request, admitted, delay, listing, spaceOk, more, lag) =>
      var h1 := h.(clock := h.clock + arrival);
      if !Fresh(request, h1.clock) || !admitted then h1
      else
        var h2 := h1.(clock := h1.clock + delay);
        var (markers, pruned) := Prune(h2.markers, h2.clock, Some(request.plan), listing);
        var h3 := h2.(markers := markers);
        if !pruned.Active? || pruned.count >= MAX_TRACKED_PLANS || !spaceOk then h3
        else
          var h4 := h3.(clock := h3.clock + more);
          if request.plan in h4.markers then h4
          else h4.(markers := h4.markers[request.plan := Minus(h4.clock, lag)], executed := h4.executed + [request])
  }

  function ServeAll(h: Helper, visits: seq<Visit>): Helper
    decreases |visits|
  {
    if visits == [] then h else ServeAll(Serve(h, visits[0]), visits[1..])
  }

  const INITIAL := Helper(map[], 0, [])

  // ----- At most once

  ghost predicate NoRepeat(executed: seq<Request>) {
    forall i, j | 0 <= i < j < |executed| :: executed[i] != executed[j]
  }

  /** A request stays dead: its marker cannot go before it expires, or it has expired. */
  ghost predicate Spent(request: Request, markers: map<Plan, nat>, clock: nat) {
    || (request.plan in markers && request.expires * MILLISECOND <= markers[request.plan] + RETENTION)
    || request.expires * MILLISECOND <= clock
  }

  ghost predicate AllSpent(h: Helper) {
    NoRepeat(h.executed) && forall r <- h.executed :: Spent(r, h.markers, h.clock)
  }

  lemma {:induction false} ScanOnlyRemovesOld(markers: map<Plan, nat>, cutoff: nat, preserve: Option<Plan>,
                                              listing: seq<Plan>, active: nat)
    ensures var (after, pruned) := Scan(markers, cutoff, preserve, listing, active);
            && after.Keys <= markers.Keys
            && (forall p <- after :: after[p] == markers[p])
            && (forall p <- markers :: p in after || markers[p] <= cutoff)
            && (preserve.Some? && preserve.value in markers ==> preserve.value in after)
            && (pruned.Active? ==> forall p <- listing :: p in after ==> after[p] > cutoff && preserve != Some(p))
    decreases |listing|
  {
    if listing != [] {
      var plan, rest := listing[0], listing[1..];
      if plan in markers && preserve != Some(plan) && markers[plan] <= cutoff {
        ScanOnlyRemovesOld(markers - {plan}, cutoff, preserve, rest, active);
      } else if plan in markers {
        ScanOnlyRemovesOld(markers, cutoff, preserve, rest, active + 1);
      } else {
        ScanOnlyRemovesOld(markers, cutoff, preserve, rest, active);
      }
    }
  }

  /** Pruning at any time removes a marker only at or after the expiry it protects. */
  lemma PruneKeepsSpent(h: Helper, preserve: Option<Plan>, listing: seq<Plan>)
    requires AllSpent(h)
    ensures AllSpent(h.(markers := Prune(h.markers, h.clock, preserve, listing).0))
  {
    if h.clock >= RETENTION {
      ScanOnlyRemovesOld(h.markers, h.clock - RETENTION, preserve, listing, 0);
    }
  }

  lemma ExpiryBound(request: Request, clock: nat)
    requires Fresh(request, clock)
    ensures clock < request.expires * MILLISECOND <= clock + RETENTION
  {
    var now := clock / MILLISECOND;
    assert now * MILLISECOND <= clock < (now + 1) * MILLISECOND;
    assert (now + 1) * MILLISECOND <= request.expires * MILLISECOND;
    assert request.expires * MILLISECOND <= (now + TTL_MILLISECONDS) * MILLISECOND;
  }

  /** A request that is still fresh has its marker in the way if it was executed before. */
  lemma ExecutedIsMarked(h: Helper, request: Request)
    requires AllSpent(h) && h.clock < request.expires * MILLISECOND && request in h.executed
    ensures request.plan in h.markers
  {
    assert Spent(request, h.markers, h.clock);
  }

  /** Whatever the pruning of a fresh request's visit removes, an executed request is not consumed again. */
  lemma PruneKeepsMarked(h: Helper, request: Request, listing: seq<Plan>)
    requires request.plan in h.markers
    ensures request.plan in Prune(h.markers, h.clock, Some(request.plan), listing).0
  {
    if h.clock >= RETENTION {
      ScanOnlyRemovesOld(h.markers, h.clock - RETENTION, Some(request.plan), listing, 0);
    }
  }

  lemma ConsumeKeepsSpent(h: Helper, request: Request)
    requires AllSpent(h) && request !in h.executed && request.plan !in h.markers
    requires request.expires * MILLISECOND <= h.clock + RETENTION
    ensures AllSpent(h.(markers := h.markers[request.plan := h.clock], executed := h.executed + [request]))
  {
  }

  lemma ServeKeepsSpent(h: Helper, v: Visit)
    requires AllSpent(h) && (v.Connection? ==> v.lag == 0)
    ensures AllSpent(Serve(h, v))
  {
    match v
    case Restart(arrival, listing) =>
      PruneKeepsSpent(h.(clock := h.clock + arrival), None, listing);
    case Connection(arrival, request, admitted, delay, listing, spaceOk, more, lag) =>
      var h1 := h.(clock := h.clock + arrival);
      if Fresh(request, h1.clock) && admitted {
        ExpiryBound(request, h1.clock);
        var h2 := h1.(clock := h1.clock + delay);
        PruneKeepsSpent(h2, Some(request.plan), listing);
        var (markers, pruned) := Prune(h2.markers, h2.clock, Some(request.plan), listing);
        var h4 := h2.(markers := markers, clock := h2.clock + more);
        assert AllSpent(h4);
        if request.plan !in markers {
          if request in h.executed {
            ExecutedIsMarked(h1, request);
            PruneKeepsMarked(h2, request, listing);
            assert false;
          }
          ConsumeKeepsSpent(h4, request);
        }
      }
  }

  lemma {:induction false} ServeAllKeepsSpent(h: Helper, visits: seq<Visit>)
    requires AllSpent(h) && LagsWithin(visits, 0)
    ensures AllSpent(ServeAll(h, visits))
    decreases |visits|
  {
    if visits != [] {
      ServeKeepsSpent(h, visits[0]);
      ServeAllKeepsSpent(Serve(h, visits[0]), visits[1..]);
    }
  }

  ghost predicate LagsWithin(visits: seq<Visit>, bound: nat) {
    forall v <- visits :: v.Connection? ==> v.lag <= bound
  }

  ghost predicate AtMostOnce(bound: nat) {
    forall visits :: LagsWithin(visits, bound) ==> NoRepeat(ServeAll(INITIAL, visits).executed)
  }

  lemma ServeThree(h: Helper, v1: Visit, v2: Visit, v3: Visit)
    ensures ServeAll(h, [v1, v2, v3]) == Serve(Serve(Serve(h, v1), v2), v3)
  {
    assert [v1, v2, v3][1..] == [v2, v3] && [v2, v3][1..] == [v3] && [v3][1..] == [];
    assert ServeAll(Serve(h, v1), [v2, v3]) == ServeAll(Serve(Serve(h, v1), v2), [v3]);
  }

  lemma FirstVisitLags(v: Visit)
    requires v == Connection(RETENTION, Request(1, 240_000), true, 0, [], true, 0, 1)
    ensures Serve(INITIAL, v) == Helper(map[1 := RETENTION - 1], RETENTION, [Request(1, 240_000)])
  {
    assert Fresh(v.request, RETENTION);
  }

  lemma ThirdVisitRepeats(h: Helper, v: Visit)
    requires h == Helper(map[2 := 2 * RETENTION - 1], 2 * RETENTION - 1, [Request(1, 240_000), Request(2, 240_000)])
    requires v == Connection(0, Request(1, 240_000), true, 0, [], true, 0, 0)
    ensures Serve(h, v).executed == [Request(1, 240_000), Request(2, 240_000), Request(1, 240_000)]
  {
    assert Fresh(v.request, h.clock);
    assert Scan(h.markers, h.clock - RETENTION, Some(1), [], 0) == (h.markers, Active(0));
  }

  /** A visit for another plan that prunes the first plan's marker. */
  lemma OtherVisitPrunes(h: Helper, v: Visit)
    requires h == Helper(map[1 := RETENTION - 1], RETENTION, [Request(1, 240_000)])
    requires v == Connection(RETENTION - 1, Request(2, 240_000), true, 0, [1], true, 0, 0)
    ensures Serve(h, v) == Helper(map[2 := 2 * RETENTION - 1], 2 * RETENTION - 1, [Request(1, 240_000), Request(2, 240_000)])
  {
    assert h.markers - {1} == map[];
    assert Scan(map[], RETENTION - 1, Some(2), [1][1..], 0) == (map[], Active(0));
    assert Scan(h.markers, RETENTION - 1, Some(2), [1], 0) == (map[], Active(0));
  }

  /** A marker one nanosecond older than the clock is enough: another plan's visit prunes it just
      before its request expires, and the request is accepted a second time. */
  lemma LaggingMarkerAllowsReplay()
    ensures exists visits :: LagsWithin(visits, 1) && !NoRepeat(ServeAll(INITIAL, visits).executed)
  {
    var p, q := Request(1, 240_000), Request(2, 240_000);
    var v1 := Connection(RETENTION, p, true, 0, [], true, 0, 1);
    var v2 := Connection(RETENTION - 1, q, true, 0, [1], true, 0, 0);
    var v3 := Connection(0, p, true, 0, [], true, 0, 0);
    FirstVisitLags(v1);
    OtherVisitPrunes(Serve(INITIAL, v1), v2);
    ThirdVisitRepeats(Serve(Serve(INITIAL, v1), v2), v3);
    ServeThree(INITIAL, v1, v2, v3);
    var executed := ServeAll(INITIAL, [v1, v2, v3]).executed;
    assert executed[0] == executed[2];
    assert LagsWithin([v1, v2, v3], 1);
  }

  /** No request runs twice in any history if and only if marker times do not lag the clock. */
  lemma AtMostOnceIffMarkersDoNotLag(bound: nat)
    ensures AtMostOnce(bound) <==> bound == 0
  {
    if bound == 0 {
      forall visits | LagsWithin(visits, 0) ensures NoRepeat(ServeAll(INITIAL, visits).executed) {
        ServeAllKeepsSpent(INITIAL, visits);
      }
    } else {
      LaggingMarkerAllowsReplay();
      var visits :| LagsWithin(visits, 1) && !NoRepeat(ServeAll(INITIAL, visits).executed);
      assert LagsWithin(visits, bound);
    }
  }

  // ----- One request

  /** Whatever a visit does, and however far its marker lags, a spent request stays spent and is not
      the one that runs. */
  lemma SpentStays(h: Helper, v: Visit, request: Request)
    requires Spent(request, h.markers, h.clock)
    ensures var after := Serve(h, v);
            && Spent(request, after.markers, after.clock)
            && (after.executed == h.executed || (after.executed == h.executed + [v.request] && v.request != request))
  {
    match v
    case Restart(arrival, listing) =>
      PruneKeepsOneSpent(h.(clock := h.clock + arrival), None, listing, request);
    case Connection(arrival, asked, admitted, delay, listing, spaceOk, more, lag) =>
      if Fresh(asked, h.clock + arrival) {
        ExpiryBound(asked, h.clock + arrival);
        var h2 := h.(clock := h.clock + arrival + delay);
        PruneKeepsOneSpent(h2, Some(asked.plan), listing, request);
        if asked.plan in h.markers {
          PruneKeepsMarked(h2, asked, listing);
        }
      }
  }

  lemma PruneKeepsOneSpent(h: Helper, preserve: Option<Plan>, listing: seq<Plan>, request: Request)
    requires Spent(request, h.markers, h.clock)
    ensures Spent(request, Prune(h.markers, h.clock, preserve, listing).0, h.clock)
  {
    if h.clock >= RETENTION {
      ScanOnlyRemovesOld(h.markers, h.clock - RETENTION, preserve, listing, 0);
    }
  }

  lemma {:induction false} SpentForever(h: Helper, visits: seq<Visit>, request: Request)
    requires Spent(request, h.markers, h.clock)
    ensures h.executed <= ServeAll(h, visits).executed
    ensures request !in ServeAll(h, visits).executed[|h.executed|..]
    decreases |visits|
  {
    if visits != [] {
      var next := Serve(h, visits[0]);
      SpentStays(h, visits[0], request);
      SpentForever(next, visits[1..], request);
      var all := ServeAll(next, visits[1..]).executed;
      assert all[|h.executed|..] == next.executed[|h.executed|..] + all[|next.executed|..];
    }
  }

  /** The request runs again in the course of `visits`. */
  ghost predicate RunsAgain(h: Helper, visits: seq<Visit>, request: Request) {
    var executed := ServeAll(h, visits).executed;
    |h.executed| <= |executed| && request in executed[|h.executed|..]
  }

  /** How long a restart waits for a marker to be old enough. */
  function UntilOld(h: Helper, born: nat): nat {
    if h.clock < born + RETENTION then born + RETENTION - h.clock else 0
  }

  lemma RestartPrunes(h: Helper, plan: Plan)
    requires plan in h.markers
    ensures var wait := UntilOld(h, h.markers[plan]);
            Serve(h, Restart(wait, [plan])) == Helper(h.markers - {plan}, h.clock + wait, h.executed)
  {
    var clock := h.clock + UntilOld(h, h.markers[plan]);
    assert [plan][1..] == [];
    assert Scan(h.markers - {plan}, clock - RETENTION, None, [], 0) == (h.markers - {plan}, Active(0));
    assert Scan(h.markers, clock - RETENTION, None, [plan], 0) == (h.markers - {plan}, Active(0));
  }

  lemma UnmarkedRuns(h: Helper, request: Request)
    requires request.plan !in h.markers && h.clock >= RETENTION && Fresh(request, h.clock)
    ensures Serve(h, Connection(0, request, true, 0, [], true, 0, 0)).executed == h.executed + [request]
  {
    assert Scan(h.markers, h.clock - RETENTION, Some(request.plan), [], 0) == (h.markers, Active(0));
  }

  /** A restart that prunes the marker as soon as it is old enough, and then the same request. */
  lemma UnspentRunsAgain(h: Helper, request: Request) returns (visits: seq<Visit>)
    requires request.plan in h.markers && !Spent(request, h.markers, h.clock)
    requires exists clock: nat :: clock <= h.clock && Fresh(request, clock)
    ensures RunsAgain(h, visits, request)
  {
    var v1 := Restart(UntilOld(h, h.markers[request.plan]), [request.plan]);
    var v2 := Connection(0, request, true, 0, [], true, 0, 0);
    visits := [v1, v2];
    RestartPrunes(h, request.plan);
    var next := Serve(h, v1);
    StillFresh(request, h.clock, next.clock);
    UnmarkedRuns(next, request);
    assert visits[1..] == [v2] && [v2][1..] == [];
    assert ServeAll(next, [v2]) == ServeAll(Serve(next, v2), []);
    assert ServeAll(h, visits) == Serve(next, v2);
    assert Serve(next, v2).executed[|h.executed|..] == [request];
  }

  /** Between its acceptance and its expiry a request stays fresh. */
  lemma StillFresh(request: Request, before: nat, clock: nat)
    requires exists accepted: nat :: accepted <= before && Fresh(request, accepted)
    requires before <= clock < request.expires * MILLISECOND
    ensures Fresh(request, clock)
  {
    var accepted: nat :| accepted <= before && Fresh(request, accepted);
    assert accepted / MILLISECOND <= clock / MILLISECOND;
    assert clock / MILLISECOND * MILLISECOND <= clock;
    assert clock / MILLISECOND < request.expires;
  }

  /** A request that has just run can run again, in some future, if and only if its remaining lifetime
      and its marker's age at birth together exceed the retention. What other visits do and how their
      markers lag makes no difference. */
  lemma RunsOnceIffMarkerOutlivesIt(h: Helper, v: Visit)
    requires v.Connection? && Serve(h, v).executed == h.executed + [v.request]
    ensures var after := Serve(h, v);
            && v.request.plan in after.markers && after.markers[v.request.plan] <= after.clock
            && (var remaining := v.request.expires * MILLISECOND - after.clock;
                var age := after.clock - after.markers[v.request.plan];
                (forall visits :: !RunsAgain(after, visits, v.request)) <==> remaining <= 0 || remaining + age <= RETENTION)
  {
    var after, request := Serve(h, v), v.request;
    assert |after.executed| > |h.executed|;
    assert request.plan in after.markers && after.markers[request.plan] <= after.clock;
    assert Fresh(request, h.clock + v.arrival) && h.clock + v.arrival <= after.clock;
    ExpiryBound(request, h.clock + v.arrival);
    if Spent(request, after.markers, after.clock) {
      forall visits ensures !RunsAgain(after, visits, request) {
        SpentForever(after, visits, request);
      }
    } else {
      var visits := UnspentRunsAgain(after, request);
    }
  }

  // ----- A fresh plan does run

  lemma {:induction false} ScanPasses(markers: map<Plan, nat>, cutoff: nat, preserve: Option<Plan>,
                                      listing: seq<Plan>, active: nat)
    requires active + |listing| < MAX_TRACKED_PLANS && (preserve.Some? ==> preserve.value !in markers)
    ensures var pruned := Scan(markers, cutoff, preserve, listing, active).1;
            pruned.Active? && pruned.count <= active + |listing|
    decreases |listing|
  {
    if listing != [] {
      var plan, rest := listing[0], listing[1..];
      if plan !in markers {
        ScanPasses(markers, cutoff, preserve, rest, active);
      } else if markers[plan] <= cutoff {
        ScanPasses(markers - {plan}, cutoff, preserve, rest, active);
      } else {
        ScanPasses(markers, cutoff, preserve, rest, active + 1);
      }
    }
  }

  /** With room for markers and in the spool, an admitted request runs if and only if it is fresh
      and its plan has no marker. */
  lemma FreshPlanRuns(h: Helper, v: Visit)
    requires v.Connection? && v.admitted && v.spaceOk && |v.listing| < MAX_TRACKED_PLANS
    requires h.clock + v.arrival + v.delay >= RETENTION
    ensures Serve(h, v).executed ==
            if Fresh(v.request, h.clock + v.arrival) && v.request.plan !in h.markers then h.executed + [v.request] else h.executed
    ensures |Serve(h, v).executed| > |h.executed| ==> v.request.plan in Serve(h, v).markers
  {
    var now := h.clock + v.arrival + v.delay;
    var plan := v.request.plan;
    ScanOnlyRemovesOld(h.markers, now - RETENTION, Some(plan), v.listing, 0);
    if plan !in h.markers {
      ScanPasses(h.markers, now - RETENTION, Some(plan), v.listing, 0);
    }
  }

  // ----- The helper process

  class HelperProcess {
    var markers: map<Plan, nat>
    var clock: nat
    var executed: seq<Request>

    ghost function View(): Helper
      reads this
    {
      Helper(markers, clock, executed)
    }

    constructor ()
      ensures View() == INITIAL
    {
      markers, clock, executed := map[], 0, [];
    }

    /** `prune_replay_markers` */
    method PruneReplayMarkers(preserve: Option<Plan>, listing: seq<Plan>) returns (pruned: Pruned)
      modifies this`markers
      ensures (markers, pruned) == Prune(old(markers), clock, preserve, listing)
    {
      if clock < RETENTION {
        return ClockTooEarly;
      }
      var cutoff := clock - RETENTION;
      var active := 0;
      for n := 0 to |listing|
        invariant Scan(old(markers), cutoff, preserve, listing, 0) == Scan(markers, cutoff, preserve, listing[n..], active)
      {
        var plan := listing[n];
        assert listing[n..][1..] == listing[n + 1..];
        if plan !in markers {
          continue;
        }
        if preserve == Some(plan) {
          return AlreadyConsumed;
        }
        if markers[plan] <= cutoff {
          markers := markers - {plan};
        } else {
          if active + 1 > MAX_TRACKED_PLANS {
            return Overflow;
          }
          active := active + 1;
        }
      }
      return Active(active);
    }

    /** `consume_plan`: exclusive creation of the marker. */
    method ConsumePlan(plan: Plan, lag: nat) returns (consumed: bool)
      modifies this`markers
      ensures consumed <==> plan !in old(markers)
      ensures markers == if consumed then old(markers)[plan := Minus(clock, lag)] else old(markers)
    {
      if plan in markers {
        return false;
      }
      markers := markers[plan := Minus(clock, lag)];
      return true;
    }

    /** One turn of `serve_listener`, or a restart. */
    method Handle(v: Visit)
      modifies this
      ensures View() == Serve(old(View()), v)
    {
      clock := clock + v.arrival;
      match v {
        case Restart(_, listing) =>
          var _ := PruneReplayMarkers(None, listing);
        case Connection(_, request, admitted, delay, listing, spaceOk, more, lag) =>
          if !Fresh(request, clock) || !admitted {
            return;
          }
          clock := clock + delay;
          var pruned := PruneReplayMarkers(Some(request.plan), listing);
          if !pruned.Active? || pruned.count >= MAX_TRACKED_PLANS || !spaceOk {
            return;
          }
          clock := clock + more;
          var consumed := ConsumePlan(request.plan, lag);
          if consumed {
            executed := executed + [request];
          }
      }
    }

    /** `serve_listener`: one connection after the other. */
    method ServeListener(visits: seq<Visit>)
      requires View() == INITIAL && LagsWithin(visits, 0)
      modifies this
      ensures View() == ServeAll(INITIAL, visits)
      ensures NoRepeat(executed)
    {
      for n := 0 to |visits|
        invariant ServeAll(INITIAL, visits) == ServeAll(View(), visits[n..])
      {
        assert visits[n..][1..] == visits[n + 1..];
        Handle(visits[n]);
      }
      ServeAllKeepsSpent(INITIAL, visits);
    }
  }
}
