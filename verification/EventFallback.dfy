/**
 The privileged helper's choice between hardware and software events: an optional probe, one
 collection, and at most one software retry, all inside the plan's one duration.
 */
module EventFallback {
  import opened Options

  const PROBE_MINIMUM_PLAN: nat := 300    // milliseconds
  const PROBE_MAXIMUM: nat := 250
  const RETRY_MINIMUM: nat := 50
  const SOFTWARE_STAT_EVENTS := ["task-clock", "context-switches", "cpu-migrations", "page-faults"]

  datatype Mode = Stat | Record
  datatype Source = HardwareRequired | SoftwareOnly | Auto
  datatype RecordEvent = Cycles | CpuClock
  datatype Plan = Plan(mode: Mode, duration: nat, source: Source, fallbackAllowed: bool, events: seq<string>,
                       recordEvent: Option<RecordEvent>)

  datatype Error = ExternalToolFailed | Other(detail: nat)
  datatype Reason = ShortCollection | ProbeFailed | NoUsableCounts | HardwareFailedAfterProbe

  datatype Evidence = Evidence(software: bool, reason: Option<Reason>, fallbackUsed: bool, events: seq<string>,
                               recordEvent: Option<RecordEvent>)
  datatype Outcome = Ok(evidence: Evidence) | Err(error: Error)

  /** How one run of perf goes: an error before it is ready, the notifier's answer, an error after
      that, the milliseconds it takes, and whether its hardware counts are usable. */
  datatype Perf = Perf(early: Option<Error>, notifier: Option<Error>, late: Option<Error>, elapsed: nat, usable: bool)

  datatype Attempt = PmuProbe(duration: nat) | Collection(plan: Plan, elapsed: nat)

  function HardwarePlan(plan: Plan, duration: nat): Plan {
    plan.(duration := duration, source := HardwareRequired, fallbackAllowed := false)
  }

  function SoftwarePlan(plan: Plan, duration: nat): Plan {
    var selected := plan.(duration := duration, source := SoftwareOnly, fallbackAllowed := false);
    match plan.mode
    case Stat => selected.(events := SOFTWARE_STAT_EVENTS, recordEvent := None)
    case Record => selected.(recordEvent := Some(CpuClock))
  }

  predicate SoftwareEvents(plan: Plan, evidence: Evidence) {
    match plan.mode
    case Stat => evidence.events == SOFTWARE_STAT_EVENTS && evidence.recordEvent == None
    case Record => evidence.events == [] && evidence.recordEvent == Some(CpuClock)
  }

  predicate RequestedEvents(plan: Plan, evidence: Evidence) {
    match plan.mode
    case Stat => evidence.events == plan.events && evidence.recordEvent == None
    case Record => evidence.events == [] && evidence.recordEvent == plan.recordEvent
  }

  /** The readiness calls made so far; at most the last one succeeded. */
  predicate ReadyAtMostOnce(calls: seq<Option<Error>>) {
    forall k | 0 <= k < |calls| - 1 :: calls[k].Some?
  }

  predicate Announced(calls: seq<Option<Error>>) {
    calls != [] && calls[|calls| - 1].None?
  }

  /** Whether a run of perf yields evidence; `announced` says that readiness was announced before. */
  predicate Succeeds(plan: Plan, perf: Perf, announced: bool) {
    && perf.early.None? && (announced || perf.notifier.None?) && perf.late.None?
    && (plan.mode.Stat? && plan.source.HardwareRequired? ==> perf.usable)
  }

  /** The first thing that goes wrong in a run that yields none. */
  function FirstError(perf: Perf, announced: bool): Error {
    if perf.early.Some? then perf.early.value
    else if !announced && perf.notifier.Some? then perf.notifier.value
    else if perf.late.Some? then perf.late.value
    else ExternalToolFailed
  }

  /** `execute_perf_inner_with_ready` with publication, and the `notify_once` it is given. */
  method Collect(plan: Plan, perf: Perf, calls: seq<Option<Error>>) returns (outcome: Outcome, now: seq<Option<Error>>)
    requires ReadyAtMostOnce(calls)
    ensures now == if perf.early.Some? || Announced(calls) then calls else calls + [perf.notifier]
    ensures ReadyAtMostOnce(now) && (outcome.Ok? ==> Announced(now))
    ensures outcome.Ok? <==> Succeeds(plan, perf, Announced(calls))
    ensures outcome.Err? ==> outcome.error == FirstError(perf, Announced(calls))
    ensures outcome.Ok? ==> outcome.evidence.reason.None? && !outcome.evidence.fallbackUsed
    ensures outcome.Ok? ==> (outcome.evidence.software <==> plan.source.SoftwareOnly?) && RequestedEvents(plan, outcome.evidence)
  {
    now := calls;
    if perf.early.Some? {
      return Err(perf.early.value), now;
    }
    if !Announced(calls) {
      now := now + [perf.notifier];
      if perf.notifier.Some? {
        return Err(perf.notifier.value), now;
      }
    }
    if perf.late.Some? {
      return Err(perf.late.value), now;
    }
    if plan.mode.Stat? && plan.source.HardwareRequired? && !perf.usable {
      return Err(ExternalToolFailed), now;
    }
    outcome := Ok(Evidence(plan.source.SoftwareOnly?, None, false, if plan.mode.Stat? then plan.events else [],
                           if plan.mode.Record? then plan.recordEvent else None));
  }

  datatype Answer = Usable | Fallback(reason: Reason) | Unavailable(error: Error)

  function ProbeError(perf: Perf): Option<Error> {
    if perf.early.Some? then perf.early else perf.late
  }

  /** `probe_hardware_pmu`; its own notifier does nothing. */
  method ProbeHardware(perf: Perf) returns (answer: Answer)
    ensures answer == Usable <==> ProbeError(perf).None? && perf.usable
    ensures answer == Fallback(ProbeFailed) <==> ProbeError(perf) == Some(ExternalToolFailed)
    ensures answer == Fallback(NoUsableCounts) <==> ProbeError(perf).None? && !perf.usable
    ensures forall e :: answer == Unavailable(e) <==> ProbeError(perf) == Some(e) && e != ExternalToolFailed
  {
    var failure := if perf.early.Some? then perf.early else perf.late;
    match failure {
      case Some(ExternalToolFailed) => return Fallback(ProbeFailed);
      case Some(error) => return Unavailable(error);
      case None => return if perf.usable then Usable else Fallback(NoUsableCounts);
    }
  }

  predicate MayFallBack(plan: Plan) {
    plan.source.Auto? && plan.fallbackAllowed
  }

  predicate Probes(plan: Plan) {
    MayFallBack(plan) && plan.duration >= PROBE_MINIMUM_PLAN
  }

  /** The probe fails for a reason that no other events can mend. */
  predicate Fatal(plan: Plan, probe: Perf) {
    Probes(plan) && ProbeError(probe).Some? && ProbeError(probe).value != ExternalToolFailed
  }

  /** Why a plan falls back before its collection: it is too short for a probe, the tool failed the
      probe, or the probe saw no usable counts. */
  function EarlyReason(plan: Plan, probe: Perf): Option<Reason> {
    if !MayFallBack(plan) then None
    else if plan.duration < PROBE_MINIMUM_PLAN then Some(ShortCollection)
    else if ProbeError(probe) == Some(ExternalToolFailed) then Some(ProbeFailed)
    else if ProbeError(probe).None? && !probe.usable then Some(NoUsableCounts)
    else None
  }

  /** The milliseconds the attempts take out of the plan: a probe its share, a collection that was
      given up what it used, and the last collection all it was given. */
  function Charged(attempts: seq<Attempt>): int {
    if attempts == [] then 0
    else
      var first, rest := attempts[0], attempts[1..];
      Charged(rest) + match first
                      case PmuProbe(duration) => duration
                      case Collection(plan, elapsed) => if rest == [] then plan.duration else elapsed
  }

  /** The milliseconds the attempts are configured with, one by one. */
  function Configured(attempts: seq<Attempt>): nat {
    if attempts == [] then 0
    else Configured(attempts[1..]) + match attempts[0]
                                     case PmuProbe(duration) => duration
                                     case Collection(plan, _) => plan.duration
  }

  predicate IsSoftware(attempt: Attempt) {
    attempt.Collection? && attempt.plan.source.SoftwareOnly?
  }

  predicate IsHardware(attempt: Attempt) {
    attempt.Collection? && attempt.plan.source.HardwareRequired?
  }

  /** The attempts a plan allows: its own choice of events, or a probe and what it leads to. */
  predicate Lawful(plan: Plan, attempts: seq<Attempt>) {
    match |attempts|
    case 0 => true
    case 1 => if attempts[0].PmuProbe? then MayFallBack(plan)
              else IsSoftware(attempts[0]) <==>
                     plan.source.SoftwareOnly? || (MayFallBack(plan) && plan.duration < PROBE_MINIMUM_PLAN)
    case 2 => MayFallBack(plan) && attempts[0].PmuProbe? && attempts[1].Collection?
    case 3 => MayFallBack(plan) && attempts[0].PmuProbe? && IsHardware(attempts[1]) && IsSoftware(attempts[2])
              && attempts[2].plan.duration >= RETRY_MINIMUM
    case _ => false
  }

  /** The probe's part of the plan: a quarter, but at most 250 ms. */
  function Share(duration: nat): (share: nat)
    ensures share <= PROBE_MAXIMUM && 4 * share <= duration
    ensures share < PROBE_MAXIMUM ==> duration < 4 * (share + 1)
  {
    if duration / 4 < PROBE_MAXIMUM then duration / 4 else PROBE_MAXIMUM
  }

  lemma ChargedUpToThree(a: Attempt, b: Attempt, c: Attempt)
    ensures Charged([]) == 0
    ensures Charged([a]) == if a.PmuProbe? then a.duration else a.plan.duration
    ensures Charged([a, b]) == Charged([b]) + if a.PmuProbe? then a.duration else a.elapsed
    ensures Charged([a, b, c]) == Charged([b, c]) + if a.PmuProbe? then a.duration else a.elapsed
    ensures Configured([]) == 0
    ensures Configured([a]) == if a.PmuProbe? then a.duration else a.plan.duration
    ensures Configured([a, b]) == Configured([b]) + if a.PmuProbe? then a.duration else a.plan.duration
    ensures Configured([a, b, c]) == Configured([b, c]) + if a.PmuProbe? then a.duration else a.plan.duration
  {
    assert [a][1..] == [] && [a, b][1..] == [b] && [a, b, c][1..] == [b, c];
  }

  /** The accounts of a plan with one collection, and with a retry for what is left of it. */
  lemma Accounts(total: nat, probed: seq<Attempt>, first: Attempt, second: Attempt)
    requires |probed| <= 1 && (forall a <- probed :: a.PmuProbe?) && first.Collection? && second.Collection?
    requires Charged(probed) + first.plan.duration == total
    ensures Charged(probed + [first]) == Configured(probed + [first]) == total
    ensures second.plan.duration > 0 && second.plan.duration == first.plan.duration - first.elapsed ==>
              Charged(probed + [first] + [second]) == total < Configured(probed + [first] + [second])
  {
    ChargedUpToThree(first, second, second);
    ChargedUpToThree(second, second, second);
    if probed == [] {
      assert probed + [first] == [first] && probed + [first] + [second] == [first, second];
    } else {
      ChargedUpToThree(probed[0], first, second);
      ChargedUpToThree(probed[0], second, second);
      assert probed + [first] == [probed[0], first] && probed + [first] + [second] == [probed[0], first, second];
    }
  }

  /** `select_event_source` */
  method SelectEventSource(plan: Plan, probe: Perf) returns (error: Option<Error>, selected: Plan, reason: Option<Reason>,
                                                            attempts: seq<Attempt>)
    ensures Lawful(plan, attempts) && Charged(attempts) <= plan.duration
    ensures attempts == if Probes(plan) then [PmuProbe(Share(plan.duration))] else []
    ensures error == (if Fatal(plan, probe) then ProbeError(probe) else None)
    ensures error.None? ==> selected.duration + Charged(attempts) == plan.duration && reason == EarlyReason(plan, probe)
    ensures error.None? ==> selected == if plan.source.SoftwareOnly? || reason.Some?
                                        then SoftwarePlan(plan, selected.duration) else HardwarePlan(plan, selected.duration)
  {
    match plan.source {
      case SoftwareOnly =>
        return None, SoftwarePlan(plan, plan.duration), None, [];
      case HardwareRequired =>
        return None, HardwarePlan(plan, plan.duration), None, [];
      case Auto =>
        if !plan.fallbackAllowed {
          return None, HardwarePlan(plan, plan.duration), None, [];
        }
        if plan.duration < PROBE_MINIMUM_PLAN {
          return None, SoftwarePlan(plan, plan.duration), Some(ShortCollection), [];
        }
        var share := Share(plan.duration);
        attempts := [PmuProbe(share)];
        var answer := ProbeHardware(probe);
        match answer {
          case Unavailable(e) => return Some(e), plan, None, attempts;
          case Usable => return None, HardwarePlan(plan, plan.duration - share), None, attempts;
          case Fallback(why) => return None, SoftwarePlan(plan, plan.duration - share), Some(why), attempts;
        }
    }
  }

  /** The run got as far as a successful announcement. */
  predicate Reported(perf: Perf) {
    perf.early.None? && perf.notifier.None?
  }

  /** A hardware collection after a probe that the tool failed while enough time is left. */
  predicate WorthARetry(attempt: Attempt, main: Perf) {
    && IsHardware(attempt) && !Succeeds(attempt.plan, main, false) && FirstError(main, false) == ExternalToolFailed
    && attempt.plan.duration - main.elapsed >= RETRY_MINIMUM
  }

  /** What the evidence says about the events, and what the attempts were. */
  predicate Truthful(plan: Plan, probe: Perf, e: Evidence, attempts: seq<Attempt>) {
    && attempts != [] && (e.software <==> IsSoftware(attempts[|attempts| - 1]))
    && (e.fallbackUsed <==> e.reason.Some?)
    && (e.fallbackUsed ==> e.software && MayFallBack(plan))
    && (e.software <==> plan.source.SoftwareOnly? || e.fallbackUsed)
    && (if e.software then SoftwareEvents(plan, e) else RequestedEvents(plan, e))
    && e.reason == (if |attempts| == 3 then Some(HardwareFailedAfterProbe) else EarlyReason(plan, probe))
  }

  /** The software attempt after a failed hardware attempt. */
  method RetryInSoftware(plan: Plan, remaining: nat, retry: Perf, calls: seq<Option<Error>>)
    returns (outcome: Outcome, attempt: Attempt, now: seq<Option<Error>>)
    requires ReadyAtMostOnce(calls)
    ensures attempt == Collection(SoftwarePlan(plan, remaining), retry.elapsed)
    ensures now == (if retry.early.Some? || Announced(calls) then calls else calls + [retry.notifier]) && ReadyAtMostOnce(now)
    ensures outcome.Ok? <==> Succeeds(attempt.plan, retry, Announced(calls))
    ensures outcome.Err? ==> outcome.error == FirstError(retry, Announced(calls))
    ensures outcome.Ok? ==> var e := outcome.evidence;
            && e.software && e.fallbackUsed && e.reason == Some(HardwareFailedAfterProbe)
            && SoftwareEvents(plan, e) && Announced(now)
  {
    var software := SoftwarePlan(plan, remaining);
    attempt := Collection(software, retry.elapsed);
    outcome, now := Collect(software, retry, calls);
    if outcome.Ok? {
      outcome := Ok(outcome.evidence.(fallbackUsed := true, reason := Some(HardwareFailedAfterProbe)));
    }
  }

  /** `execute_perf_with_ready`: for every behaviour of the tool and of the notifier, readiness is
      announced at most once and never by the probe, the attempts share the plan's duration, and
      the evidence says truthfully whether and why software events replaced hardware events. */
  method ExecutePerf(plan: Plan, probe: Perf, main: Perf, retry: Perf)
    returns (outcome: Outcome, attempts: seq<Attempt>, calls: seq<Option<Error>>)
    ensures attempts != [] && Lawful(plan, attempts) && Charged(attempts) <= plan.duration
    ensures attempts[|attempts| - 1].Collection? ==> Charged(attempts) == plan.duration
    ensures ReadyAtMostOnce(calls) && |calls| <= 2 && (outcome.Ok? ==> Announced(calls))
    ensures (forall a <- attempts :: a.PmuProbe?) ==> calls == []
    ensures outcome.Ok? ==> Truthful(plan, probe, outcome.evidence, attempts)
    ensures attempts[|attempts| - 1].PmuProbe? <==> Fatal(plan, probe)
    ensures |attempts| >= 2 ==> (IsHardware(attempts[1]) <==> ProbeError(probe).None? && probe.usable)
    ensures Configured(attempts) <= plan.duration <==> |attempts| < 3
    ensures var last := attempts[|attempts| - 1];
            if last.PmuProbe? then outcome.Err? && Some(outcome.error) == ProbeError(probe)
            else if |attempts| < 3 then
              outcome.Ok? == Succeeds(last.plan, main, false) && (outcome.Err? ==> outcome.error == FirstError(main, false))
            else
              && outcome.Ok? == Succeeds(last.plan, retry, Reported(main))
              && (outcome.Err? ==> outcome.error == FirstError(retry, Reported(main)))
    ensures |attempts| == 3 <==> |attempts| >= 2 && WorthARetry(attempts[1], main)
  {
    var error, selected, reason;
    error, selected, reason, attempts := SelectEventSource(plan, probe);
    calls := [];
    if error.Some? {
      return Err(error.value), attempts, calls;
    }
    var first := Collection(selected, main.elapsed);
    ghost var probed := attempts;
    Accounts(plan.duration, probed, first, first);
    attempts := attempts + [first];
    outcome, calls := Collect(selected, main, calls);
    var remaining := if main.elapsed < selected.duration then selected.duration - main.elapsed else 0;
    if outcome.Err? && MayFallBack(plan) && reason.None? && outcome.error == ExternalToolFailed && remaining >= RETRY_MINIMUM {
      var second;
      outcome, second, calls := RetryInSoftware(plan, remaining, retry, calls);
      Accounts(plan.duration, probed, first, second);
      attempts := attempts + [second];
    }
    if outcome.Ok? && !outcome.evidence.fallbackUsed {
      outcome := Ok(outcome.evidence.(fallbackUsed := reason.Some?, reason := reason));
    }
  }
}
