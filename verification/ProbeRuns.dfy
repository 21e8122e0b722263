/**
 Runs of a whole process under the pthread probe: the constructor, the destructor and any
 number of threads interleaved in any order.
 */
module ProbeRuns {
  import opened Options
  import opened ProbeStream
  import opened HeldLocks
  import opened ProbeThreads

  datatype Phase = Unloaded | Loading | Loaded

  datatype Run = Run(phase: Phase, channel: Channel, threads: map<nat, Thread>)

  datatype Step =
    | LoadPublish
    | LoadHeader(written: bool)
    | Finalize(written: bool)
    | Act(tid: nat, input: Input)
    | Leave(tid: nat)

  const INITIAL := Run(Unloaded, UNLOADED, map[])

  function ThreadOf(r: Run, tid: nat): Thread {
    if tid in r.threads then r.threads[tid] else FRESH
  }

  /** The constructor publishes `active` first and writes the header afterwards, without the
      output lock: the two are separate steps. A step that is not enabled does nothing. */
  function Apply(s: Settings, r: Run, step: Step): Run {
    match step
    case LoadPublish =>
      if r.phase == Unloaded then r.(phase := Loading, channel := Publish(r.channel)) else r
    case LoadHeader(written) =>
      if r.phase == Loading then r.(phase := Loaded, channel := EmitHeader(r.channel, written)) else r
    case Finalize(written) =>
      if r.phase == Loaded && r.channel.configured then r.(channel := EmitFooter(r.channel, written)) else r
    case Act(tid, input) =>
      if r.phase != Unloaded then
        var j := ThreadStep(s, tid, Joint(r.channel, ThreadOf(r, tid)), input);
        r.(channel := j.channel, threads := r.threads[tid := j.thread])
      else r
    case Leave(tid) =>
      r.(threads := r.threads - {tid})
  }

  function Execute(s: Settings, r: Run, steps: seq<Step>): Run
    decreases |steps|
  {
    if steps == [] then r else Execute(s, Apply(s, r, steps[0]), steps[1..])
  }

  // ----- What one step may do to the channel

  /** A thread step writes at most one event and then may count some losses. */
  datatype Effect = Effect(emits: bool, draft: Draft, written: bool, loses: nat)

  const NO_DRAFT := BeginDraft(Token(0, Mutex), 0)

  function Take(max: nat, tid: nat, c: Channel, f: Effect): Channel {
    var d := if f.emits then EmitEvent(max, c, tid, f.draft, f.written).channel else c;
    if f.loses == 0 then d else MarkLost(d, f.loses)
  }

  /** The record that `record_release` writes for the first candidate that has one. */
  function ReleaseOf(held: seq<Held>, candidates: seq<Token>, at: nat): Option<Draft>
    decreases |candidates|
  {
    if candidates == [] then None
    else
      match TakeNewest(held, candidates[0])
      case None => ReleaseOf(held, candidates[1..], at)
      case Some(t) =>
        if t.entry.acquired == 0 then ReleaseOf(t.rest, candidates[1..], at) else Some(ReleaseDraft(t.entry, at))
  }

  /** The record that a thread tries to write in its next critical section. */
  function Attempt(t: Thread): Option<Draft> {
    match t.pc
    case LockBegin(token, begun) => Some(BeginDraft(token, begun))
    case LockLateBegin(token, begun, _, _) => Some(BeginDraft(token, begun))
    case LockEnd(token, begun, ended, result, wait) => Some(EndDraft(token, begun, ended, wait, LockVerdict(result)))
    case LockAcquire(token, ended, waitEnd) => Some(AcquireDraft(token, ended, waitEnd))
    case UnlockRecord(candidates, at) => ReleaseOf(t.held, candidates, at)
    case CondBegin(cond, _, begun) => Some(BeginDraft(cond, begun))
    case CondTake(_, mutex, begun, _) => ReleaseOf(t.held, [mutex], begun)
    case CondLateBegin(cond, _, begun, _, _) => Some(BeginDraft(cond, begun))
    case CondEnd(cond, _, begun, ended, result, wait) => Some(EndDraft(cond, begun, ended, wait, CondVerdict(result)))
    case CondPush(mutex, ended, result, waitEnd) =>
      if (result == 0 || result == ETIMEDOUT) && waitEnd != 0 && |t.held| < HELD_SLOTS
      then Some(AcquireDraft(mutex, ended, 0)) else None
    case _ => None
  }

  /** The losses a thread counts after that, apart from the record itself; `number` is the record's
      number or 0. */
  function Losses(t: Thread, number: nat): nat {
    match t.pc
    case LockNoSlot => 2
    case LockAcquire(_, _, _) => if number != 0 && |t.held| >= HELD_SLOTS then 1 else 0
    case CondPush(_, _, result, _) => if (result == 0 || result == ETIMEDOUT) && |t.held| >= HELD_SLOTS then 1 else 0
    case _ => 0
  }

  function AttemptNumber(max: nat, tid: nat, c: Channel, t: Thread, written: bool): nat {
    match Attempt(t)
    case None => 0
    case Some(d) => EmitEvent(max, c, tid, d, written).sequence
  }

  /** What an input makes of the channel. */
  function EffectOf(max: nat, tid: nat, j: Joint, input: Input): Effect {
    match input
    case Critical(written) =>
      var loses := Losses(j.thread, AttemptNumber(max, tid, j.channel, j.thread, written));
      (match Attempt(j.thread)
       case None => Effect(false, NO_DRAFT, written, loses)
       case Some(d) => Effect(true, d, written, loses))
    case Cancel => Effect(false, NO_DRAFT, false, if j.thread.pc.CondCall? then |j.thread.held| + 1 else 0)
    case _ => Effect(false, NO_DRAFT, false, 0)
  }

  lemma {:induction false} ReleaseEffect(max: nat, tid: nat, j: Joint, candidates: seq<Token>, at: nat, written: bool)
    ensures RecordRelease(max, tid, j, candidates, at, written).channel ==
            match ReleaseOf(j.thread.held, candidates, at)
            case None => j.channel
            case Some(d) => EmitEvent(max, j.channel, tid, d, written).channel
    decreases |candidates|
  {
    if candidates != [] {
      match TakeNewest(j.thread.held, candidates[0])
      case None => ReleaseEffect(max, tid, j, candidates[1..], at, written);
      case Some(t) =>
        if t.entry.acquired == 0 {
          ReleaseEffect(max, tid, j.(thread := j.thread.(held := t.rest)), candidates[1..], at, written);
        }
    }
  }

  lemma TakeForWaitIsARelease(max: nat, tid: nat, j: Joint, mutex: Token, at: nat, written: bool)
    ensures TakeForWait(max, tid, j, mutex, at, written) == RecordRelease(max, tid, j, [mutex], at, written)
  {
    assert [mutex][1..] == [];
  }

  lemma AdvanceEffect(max: nat, tid: nat, j: Joint, written: bool)
    ensures Advance(max, tid, j, written).channel == Take(max, tid, j.channel, EffectOf(max, tid, j, Critical(written)))
  {
    match j.thread.pc
    case UnlockRecord(candidates, at) => ReleaseEffect(max, tid, j, candidates, at, written);
    case CondTake(cond, mutex, begun, wait) =>
      TakeForWaitIsARelease(max, tid, j, mutex, begun, written);
      ReleaseEffect(max, tid, j, [mutex], begun, written);
    case _ =>
  }

  lemma ThreadStepEffect(s: Settings, tid: nat, j: Joint, input: Input) returns (f: Effect)
    ensures f == EffectOf(s.maxEvents, tid, j, input)
    ensures ThreadStep(s, tid, j, input).channel == Take(s.maxEvents, tid, j.channel, f)
  {
    f := EffectOf(s.maxEvents, tid, j, input);
    if input.Critical? {
      AdvanceEffect(s.maxEvents, tid, j, input.written);
    }
  }

  // ----- The order of the stream

  /** The footer declares exactly the events before it and carries the next number. It says
      truncated when something was lost; the converse can fail only once 2^64 losses have
      wrapped its counter. */
  ghost predicate FooterFor(record: Record, k: nat, lostInAll: nat) {
    && record.Footer?
    && record.declared == k && record.sequence == k + 1
    && (record.lost > 0 ==> record.truncated)
    && (lostInAll < TWO64 && record.truncated ==> record.lost > 0)
  }

  /** Events 1..k within the budget, then at most one record that closes the channel: a footer that
      declares k, or a failed write. */
  ghost predicate InOrder(max: nat, c: Channel, records: seq<Record>, k: nat) {
    && k <= max && k <= |records|
    && (forall i | 0 <= i < k :: records[i].Event? && records[i].sequence == i + 1)
    && (|records| == k
        || (|records| == k + 1 && !c.active && (records[k] == Torn || FooterFor(records[k], k, c.lostInAll))))
  }

  /** The stream as it should be: nothing yet, a failed header, or a header and then that. */
  ghost predicate WellShaped(max: nat, c: Channel, k: nat) {
    c.stream == [] || c.stream == [Torn] || (c.stream[0] == Header && InOrder(max, c, c.stream[1..], k))
  }

  ghost predicate Counted(max: nat, c: Channel) {
    && c.lost == c.lostInAll % TWO64
    && (c.truncated <==> c.lostInAll > 0)
    && c.emitted <= max
  }

  /** While the channel is open its records are exactly the events written so far. */
  ghost predicate Steady(max: nat, c: Channel, records: seq<Record>) {
    && Counted(max, c) && InOrder(max, c, records, c.emitted)
    && (c.active ==> |records| == c.emitted == c.sequence)
  }

  /** The stream without the record at `h`. */
  function Without(stream: seq<Record>, h: nat): seq<Record>
    requires h < |stream|
  {
    stream[..h] + stream[h + 1..]
  }

  /** The header, or the failed write in its place, is at `h`; a failed one is the last record. */
  ghost predicate HeaderAt(c: Channel, h: nat) {
    h < |c.stream| && (c.stream[h] == Header || (c.stream[h] == Torn && h + 1 == |c.stream| && !c.active))
  }

  ghost predicate OrderInv(max: nat, r: Run, h: nat) {
    match r.phase
    case Unloaded => r.channel == UNLOADED && r.threads == map[]
    case Loading => r.channel.configured && Steady(max, r.channel, r.channel.stream)
    case Loaded => r.channel.configured && HeaderAt(r.channel, h) && Steady(max, r.channel, Without(r.channel.stream, h))
  }

  lemma EmitIsSteady(max: nat, tid: nat, c: Channel, d: Draft, written: bool, records: seq<Record>)
    requires Steady(max, c, records)
    ensures var e := EmitEvent(max, c, tid, d, written).channel;
            && Steady(max, e, if c.active && c.emitted < max then records + [e.stream[|e.stream| - 1]] else records)
            && (if c.active && c.emitted < max then |e.stream| == |c.stream| + 1 && c.stream == e.stream[..|c.stream|]
                else e.stream == c.stream)
  {
  }

  lemma LossIsSteady(max: nat, c: Channel, count: nat, records: seq<Record>)
    requires Steady(max, c, records) && count > 0
    ensures Steady(max, MarkLost(c, count), records) && MarkLost(c, count).stream == c.stream
  {
  }

  /** One step of a thread adds at most one record, at the end, and keeps the order. */
  lemma TakeIsSteady(max: nat, tid: nat, c: Channel, f: Effect, records: seq<Record>) returns (added: seq<Record>)
    requires Steady(max, c, records)
    ensures Steady(max, Take(max, tid, c, f), records + added)
    ensures Take(max, tid, c, f).stream == c.stream + added
    ensures added != [] ==> c.active && f.emits
  {
    var d := if f.emits then EmitEvent(max, c, tid, f.draft, f.written).channel else c;
    added := [];
    assert records + [] == records && c.stream + [] == c.stream;
    if f.emits {
      EmitIsSteady(max, tid, c, f.draft, f.written, records);
      if c.active && c.emitted < max {
        added := [d.stream[|d.stream| - 1]];
      }
    }
    if f.loses > 0 {
      LossIsSteady(max, d, f.loses, records + added);
    }
  }

  lemma WithoutGrows(stream: seq<Record>, h: nat, added: seq<Record>)
    requires h < |stream|
    ensures Without(stream + added, h) == Without(stream, h) + added
  {
  }

  lemma ActKeepsOrder(s: Settings, r: Run, tid: nat, input: Input, h: nat)
    requires OrderInv(s.maxEvents, r, h)
    ensures OrderInv(s.maxEvents, Apply(s, r, Act(tid, input)), h)
    ensures r.channel.stream <= Apply(s, r, Act(tid, input)).channel.stream
  {
    if r.phase != Unloaded {
      var f := ThreadStepEffect(s, tid, Joint(r.channel, ThreadOf(r, tid)), input);
      var records := if r.phase == Loaded then Without(r.channel.stream, h) else r.channel.stream;
      var added := TakeIsSteady(s.maxEvents, tid, r.channel, f, records);
      if r.phase == Loaded {
        WithoutGrows(r.channel.stream, h, added);
      }
    }
  }

  lemma HeaderKeepsOrder(s: Settings, r: Run, written: bool)
    requires r.phase == Loading && OrderInv(s.maxEvents, r, 0)
    ensures OrderInv(s.maxEvents, Apply(s, r, LoadHeader(written)), |r.channel.stream|)
  {
    var records, last := r.channel.stream, if written then Header else Torn;
    var c := EmitHeader(r.channel, written);
    assert c.stream == records + [last] && Without(c.stream, |records|) == records;
    assert Steady(s.maxEvents, c, records);
  }

  lemma FooterKeepsOrder(s: Settings, r: Run, written: bool, h: nat)
    requires r.phase == Loaded && OrderInv(s.maxEvents, r, h)
    ensures OrderInv(s.maxEvents, Apply(s, r, Finalize(written)), h)
  {
    var c := r.channel;
    if c.active {
      var last := if written then Footer(c.sequence + 1, c.emitted, c.lost, c.truncated) else Torn;
      var records, f := Without(c.stream, h), EmitFooter(c, written);
      WithoutGrows(c.stream, h, [last]);
      assert f.stream == c.stream + [last];
      assert Steady(s.maxEvents, f, records + [last]);
    }
  }

  /** `after` is where the header is once it is written: behind what was there before. */
  lemma ApplyKeepsOrder(s: Settings, r: Run, step: Step, h: nat) returns (after: nat)
    requires OrderInv(s.maxEvents, r, h)
    ensures OrderInv(s.maxEvents, Apply(s, r, step), after)
    ensures after == if r.phase == Loading && step.LoadHeader? then |r.channel.stream| else h
  {
    after := h;
    match step
    case LoadHeader(written) =>
      if r.phase == Loading {
        after := |r.channel.stream|;
        HeaderKeepsOrder(s, r, written);
      }
    case Finalize(written) =>
      if r.phase == Loaded {
        FooterKeepsOrder(s, r, written, h);
      }
    case Act(tid, input) => ActKeepsOrder(s, r, tid, input, h);
    case _ =>
  }

  lemma {:induction false} ExecuteKeepsOrder(s: Settings, r: Run, steps: seq<Step>, h: nat) returns (after: nat)
    requires OrderInv(s.maxEvents, r, h)
    ensures OrderInv(s.maxEvents, Execute(s, r, steps), after)
    ensures r.phase == Loaded ==> after == h && Execute(s, r, steps).phase == Loaded
    ensures r.phase == Loading && Execute(s, r, steps).phase == Loaded ==> after >= |r.channel.stream|
    decreases |steps|
  {
    after := h;
    if steps != [] {
      ApplyAppends(s, r, steps[0]);
      var next := ApplyKeepsOrder(s, r, steps[0], h);
      after := ExecuteKeepsOrder(s, Apply(s, r, steps[0]), steps[1..], next);
    }
  }

  /** Whatever the threads, the constructor and the destructor do, the records other than the header
      are events 1..k within the budget, then at most one footer that declares k or a failed write,
      which ends the stream. */
  lemma RecordsAreInOrder(s: Settings, steps: seq<Step>) returns (h: nat)
    requires Execute(s, INITIAL, steps).phase == Loaded
    ensures var c := Execute(s, INITIAL, steps).channel;
            HeaderAt(c, h) && InOrder(s.maxEvents, c, Without(c.stream, h), c.emitted)
  {
    h := ExecuteKeepsOrder(s, INITIAL, steps, 0);
  }

  // ----- The shape of the stream

  /** The step is an attempt to write an event to the open channel. */
  predicate Tries(s: Settings, r: Run, step: Step) {
    && step.Act? && r.phase != Unloaded && r.channel.active
    && EffectOf(s.maxEvents, step.tid, Joint(r.channel, ThreadOf(r, step.tid)), step.input).emits
  }

  /** No step between the two halves of the constructor is such an attempt. */
  ghost predicate SilentLoad(s: Settings, r: Run, steps: seq<Step>)
    decreases |steps|
  {
    steps == [] || (!(r.phase == Loading && Tries(s, r, steps[0])) && SilentLoad(s, Apply(s, r, steps[0]), steps[1..]))
  }

  /** What a silent load keeps: nothing in the stream before the header. */
  ghost predicate EmptyUntilLoaded(r: Run) {
    r.phase == Loading ==> r.channel.stream == [] && r.channel.active
  }

  lemma SilentStep(s: Settings, r: Run, step: Step)
    requires EmptyUntilLoaded(r) && !(r.phase == Loading && Tries(s, r, step)) && OrderInv(s.maxEvents, r, 0)
    ensures EmptyUntilLoaded(Apply(s, r, step))
  {
    if step.Act? && r.phase == Loading {
      var f := ThreadStepEffect(s, step.tid, Joint(r.channel, ThreadOf(r, step.tid)), step.input);
    }
  }

  lemma {:induction false} SilentRun(s: Settings, r: Run, steps: seq<Step>)
    requires OrderInv(s.maxEvents, r, 0) && EmptyUntilLoaded(r) && SilentLoad(s, r, steps)
    ensures OrderInv(s.maxEvents, Execute(s, r, steps), 0) && EmptyUntilLoaded(Execute(s, r, steps))
    decreases |steps|
  {
    if steps != [] {
      SilentStep(s, r, steps[0]);
      var after := ApplyKeepsOrder(s, r, steps[0], 0);
      SilentRun(s, Apply(s, r, steps[0]), steps[1..]);
    }
  }

  /** The first attempt of a load that is not silent writes the first record. */
  lemma FirstAttempt(s: Settings, r: Run, step: Step)
    requires s.maxEvents > 0 && OrderInv(s.maxEvents, r, 0) && EmptyUntilLoaded(r) && r.phase == Loading && Tries(s, r, step)
    ensures var l := Apply(s, r, step); l.phase == Loading && |l.channel.stream| == 1 && l.channel.stream[0] != Header
  {
    var f := ThreadStepEffect(s, step.tid, Joint(r.channel, ThreadOf(r, step.tid)), step.input);
  }

  lemma {:induction false} LoudRun(s: Settings, r: Run, steps: seq<Step>)
    requires s.maxEvents > 0 && OrderInv(s.maxEvents, r, 0) && EmptyUntilLoaded(r) && !SilentLoad(s, r, steps)
    requires Execute(s, r, steps).phase == Loaded
    ensures |Execute(s, r, steps).channel.stream| > 1 && Execute(s, r, steps).channel.stream[0] != Header
    decreases |steps|
  {
    var next := Apply(s, r, steps[0]);
    if r.phase == Loading && Tries(s, r, steps[0]) {
      FirstAttempt(s, r, steps[0]);
      var h := ApplyKeepsOrder(s, r, steps[0], 0);
      var after := ExecuteKeepsOrder(s, next, steps[1..], h);
      StreamOnlyGrows(s, next, steps[1..]);
    } else {
      SilentStep(s, r, steps[0]);
      var h := ApplyKeepsOrder(s, r, steps[0], 0);
      LoudRun(s, next, steps[1..]);
    }
  }

  /** For every run that has loaded the probe: the whole stream is well shaped if and only if no event
      was attempted between the two halves of the constructor. */
  lemma WellShapedIffLoadWasSilent(s: Settings, steps: seq<Step>)
    requires s.maxEvents > 0 && Execute(s, INITIAL, steps).phase == Loaded
    ensures var c := Execute(s, INITIAL, steps).channel;
            WellShaped(s.maxEvents, c, c.emitted) <==> SilentLoad(s, INITIAL, steps)
  {
    var c := Execute(s, INITIAL, steps).channel;
    if SilentLoad(s, INITIAL, steps) {
      SilentRun(s, INITIAL, steps);
      assert Without(c.stream, 0) == c.stream[1..];
    } else {
      LoudRun(s, INITIAL, steps);
    }
  }

  // ----- What closes the channel

  lemma ApplyAppends(s: Settings, r: Run, step: Step)
    ensures r.channel.stream <= Apply(s, r, step).channel.stream
    ensures r.phase == Loaded ==> Apply(s, r, step).phase == Loaded
    ensures r.phase == Loading ==> Apply(s, r, step).phase != Unloaded
    ensures r.phase == Loaded && !r.channel.active ==>
              !Apply(s, r, step).channel.active && Apply(s, r, step).channel.stream == r.channel.stream
  {
    match step
    case Act(tid, input) =>
      var f := ThreadStepEffect(s, tid, Joint(r.channel, ThreadOf(r, tid)), input);
    case _ =>
  }

  /** The stream only grows, and nothing follows a footer or a failed write. */
  lemma {:induction false} StreamOnlyGrows(s: Settings, r: Run, steps: seq<Step>)
    ensures r.channel.stream <= Execute(s, r, steps).channel.stream
    ensures r.phase == Loaded && !r.channel.active ==> Execute(s, r, steps).channel.stream == r.channel.stream
    decreases |steps|
  {
    if steps != [] {
      ApplyAppends(s, r, steps[0]);
      StreamOnlyGrows(s, Apply(s, r, steps[0]), steps[1..]);
    }
  }

  // ----- Every attempt is accounted for

  function EventsIn(stream: seq<Record>): nat {
    if stream == [] then 0
    else EventsIn(stream[..|stream| - 1]) + if stream[|stream| - 1].Event? then 1 else 0
  }

  function Tried(s: Settings, r: Run, steps: seq<Step>): nat
    decreases |steps|
  {
    if steps == [] then 0
    else (if Tries(s, r, steps[0]) then 1 else 0) + Tried(s, Apply(s, r, steps[0]), steps[1..])
  }

  /** The losses counted beside the records that could not be written: full tables and cancelled waits. */
  function OtherLosses(s: Settings, r: Run, steps: seq<Step>): nat
    decreases |steps|
  {
    if steps == [] then 0
    else
      var step := steps[0];
      OtherLosses(s, Apply(s, r, step), steps[1..])
      + if step.Act? && r.phase != Unloaded && r.channel.configured
        then EffectOf(s.maxEvents, step.tid, Joint(r.channel, ThreadOf(r, step.tid)), step.input).loses else 0
  }

  lemma AppendCounts(stream: seq<Record>, record: Record)
    ensures EventsIn(stream + [record]) == EventsIn(stream) + if record.Event? then 1 else 0
  {
    assert (stream + [record])[..|stream|] == stream;
  }

  ghost predicate Tallied(r: Run) {
    EventsIn(r.channel.stream) == r.channel.emitted
  }

  /** What is written and what is lost so far. */
  function Spent(c: Channel): nat {
    c.emitted + c.lostInAll
  }

  lemma EmitAccounts(max: nat, c: Channel, tid: nat, d: Draft, written: bool)
    requires EventsIn(c.stream) == c.emitted
    ensures var e := EmitEvent(max, c, tid, d, written).channel;
            EventsIn(e.stream) == e.emitted && e.configured == c.configured && Spent(e) == Spent(c) + if c.active then 1 else 0
  {
    AppendCounts(c.stream, Event(c.sequence + 1, tid, d));
    AppendCounts(c.stream, Torn);
  }

  lemma TakeAccounts(max: nat, tid: nat, c: Channel, f: Effect)
    requires EventsIn(c.stream) == c.emitted
    ensures var d := Take(max, tid, c, f);
            && EventsIn(d.stream) == d.emitted
            && Spent(d) == Spent(c) + (if f.emits && c.active then 1 else 0) + if c.configured then f.loses else 0
  {
    if f.emits {
      EmitAccounts(max, c, tid, f.draft, f.written);
    }
  }

  lemma ActAccounts(s: Settings, r: Run, tid: nat, input: Input)
    requires Tallied(r) && r.phase != Unloaded
    ensures var n, f := Apply(s, r, Act(tid, input)), EffectOf(s.maxEvents, tid, Joint(r.channel, ThreadOf(r, tid)), input);
            && Tallied(n)
            && Spent(n.channel) == Spent(r.channel) + (if f.emits && r.channel.active then 1 else 0)
                                   + if r.channel.configured then f.loses else 0
  {
    var f := ThreadStepEffect(s, tid, Joint(r.channel, ThreadOf(r, tid)), input);
    TakeAccounts(s.maxEvents, tid, r.channel, f);
  }

  lemma OneStepTallies(s: Settings, r: Run, step: Step)
    ensures Tried(s, r, [step]) == if Tries(s, r, step) then 1 else 0
    ensures OtherLosses(s, r, [step]) ==
            if step.Act? && r.phase != Unloaded && r.channel.configured
            then EffectOf(s.maxEvents, step.tid, Joint(r.channel, ThreadOf(r, step.tid)), step.input).loses else 0
  {
    assert [step][1..] == [];
  }

  lemma StepAccounts(s: Settings, r: Run, step: Step)
    requires Tallied(r)
    ensures Tallied(Apply(s, r, step))
    ensures Spent(Apply(s, r, step).channel) == Spent(r.channel) + Tried(s, r, [step]) + OtherLosses(s, r, [step])
  {
    OneStepTallies(s, r, step);
    match step
    case Act(tid, input) =>
      if r.phase != Unloaded {
        ActAccounts(s, r, tid, input);
      }
    case LoadHeader(written) => AppendCounts(r.channel.stream, if written then Header else Torn);
    case Finalize(written) =>
      var c := r.channel;
      AppendCounts(c.stream, if written then Footer(c.sequence + 1, c.emitted, c.lost, c.truncated) else Torn);
    case _ =>
  }

  lemma {:induction false} ExecuteAccounts(s: Settings, r: Run, steps: seq<Step>)
    requires Tallied(r)
    ensures Tallied(Execute(s, r, steps))
    ensures Spent(Execute(s, r, steps).channel) == Spent(r.channel) + Tried(s, r, steps) + OtherLosses(s, r, steps)
    decreases |steps|
  {
    if steps != [] {
      StepAccounts(s, r, steps[0]);
      OneStepTallies(s, r, steps[0]);
      ExecuteAccounts(s, Apply(s, r, steps[0]), steps[1..]);
    }
  }

  /** Over every run, the events in the stream and the losses counted are the attempts made while the
      channel was open and the losses of full tables and cancelled waits. */
  lemma EveryAttemptIsWrittenOrCounted(s: Settings, steps: seq<Step>)
    ensures var c := Execute(s, INITIAL, steps).channel;
            EventsIn(c.stream) + c.lostInAll == Tried(s, INITIAL, steps) + OtherLosses(s, INITIAL, steps)
  {
    ExecuteAccounts(s, INITIAL, steps);
  }

  // ----- A load that is not silent

  lemma {:induction false} ExecuteConcat(s: Settings, r: Run, a: seq<Step>, b: seq<Step>)
    ensures Execute(s, r, a + b) == Execute(s, Execute(s, r, a), b)
    decreases |a|
  {
    if a == [] {
      assert a + b == b;
    } else {
      assert (a + b)[1..] == a[1..] + b;
      ExecuteConcat(s, Apply(s, r, a[0]), a[1..], b);
    }
  }

  /** A wrapper called between the halves of the constructor does put an event before the header. */
  lemma LoudLoadPutsAnEventFirst(token: Token, now: nat)
    ensures var s := Settings(true, 0, 1);
            var steps := [LoadPublish, Act(7, CallLock(token, now)), Act(7, Critical(true)), LoadHeader(true)];
            Execute(s, INITIAL, steps).channel.stream == [Event(1, 7, BeginDraft(token, now)), Header]
  {
    var s := Settings(true, 0, 1);
    var a, b, c, d := LoadPublish, Act(7, CallLock(token, now)), Act(7, Critical(true)), LoadHeader(true);
    var r1 := Apply(s, INITIAL, a);
    var r2 := Apply(s, r1, b);
    var r3 := Apply(s, r2, c);
    assert r3.channel.stream == [Event(1, 7, BeginDraft(token, now))];
    FourSteps(s, INITIAL, a, b, c, d);
  }

  lemma FourSteps(s: Settings, r: Run, a: Step, b: Step, c: Step, d: Step)
    ensures Execute(s, r, [a, b, c, d]) == Apply(s, Apply(s, Apply(s, Apply(s, r, a), b), c), d)
  {
    ExecuteConcat(s, r, [a, b], [c, d]);
    ExecuteConcat(s, r, [a], [b]);
    ExecuteConcat(s, Execute(s, r, [a, b]), [c], [d]);
    assert [a] + [b] == [a, b] && [c] + [d] == [c, d] && [a, b] + [c, d] == [a, b, c, d];
  }
}
