/**
 The links between records: what `related_source_event_id` may point to, in every run.
 */
module ProbeCausality {
  import opened Options
  import opened ProbeStream
  import opened HeldLocks
  import opened ProbeThreads
  import opened ProbeRuns

  ghost predicate Names(stream: seq<Record>, tid: nat, n: nat, kind: EventKind, token: Token) {
    && 0 < n < |stream|
    && stream[n].Event? && stream[n].tid == tid
    && stream[n].draft.kind == kind && stream[n].draft.token == token
  }

  /** What the link of record `i` points to: a strictly earlier record of the same thread and the
      same token, of the right kind, with the duration or the hold time that lies between the two.
      Only the acquire record after a condition wait has no link. */
  ghost predicate ProperLink(stream: seq<Record>, i: nat)
    requires i < |stream| && stream[i].Event?
  {
    var d, tid := stream[i].draft, stream[i].tid;
    var n := d.related;
    match d.kind
    case WaitBegin => n == 0
    case WaitEnd =>
      && n < i && Names(stream, tid, n, WaitBegin, d.token)
      && d.duration == Some(Elapsed(stream[n].draft.at, d.at))
    case Acquire =>
      || n == 0
      || (&& n < i && Names(stream, tid, n, WaitEnd, d.token)
          && stream[n].draft.verdict == Acquired && stream[n].draft.at == d.at)
    case Release =>
      && n < i && Names(stream, tid, n, Acquire, d.token)
      && d.hold == Some(Elapsed(stream[n].draft.at, d.at))
  }

  /** Every link is proper and no record is the target of two. */
  ghost predicate Causal(stream: seq<Record>) {
    && (forall i | 0 <= i < |stream| && stream[i].Event? :: ProperLink(stream, i))
    && (forall i, j | 0 <= i < j < |stream| && stream[i].Event? && stream[j].Event?
          :: stream[i].draft.related == stream[j].draft.related ==> stream[i].draft.related == 0)
  }

  // ----- Links that a thread has not written yet

  ghost predicate Unlinked(stream: seq<Record>, n: nat) {
    forall i | 0 <= i < |stream| && stream[i].Event? :: stream[i].draft.related != n
  }

  ghost predicate Ref(stream: seq<Record>, tid: nat, n: nat, kind: EventKind, token: Token, at: nat) {
    && Names(stream, tid, n, kind, token)
    && stream[n].draft.at == at
    && (kind == WaitEnd ==> stream[n].draft.verdict == Acquired)
    && Unlinked(stream, n)
  }

  ghost predicate HeldRefs(stream: seq<Record>, tid: nat, held: seq<Held>) {
    && (forall i | 0 <= i < |held| && held[i].acquired != 0
          :: Ref(stream, tid, held[i].acquired, Acquire, held[i].token, held[i].at))
    && (forall i, j | 0 <= i < j < |held| :: held[i].acquired == held[j].acquired ==> held[i].acquired == 0)
  }

  ghost predicate PcRefs(stream: seq<Record>, tid: nat, pc: Pc) {
    match pc
    case LockCall(token, begun, wait) => wait == 0 || Ref(stream, tid, wait, WaitBegin, token, begun)
    case LockEnd(token, begun, ended, result, wait) => Ref(stream, tid, wait, WaitBegin, token, begun)
    case LockAcquire(token, ended, waitEnd) => Ref(stream, tid, waitEnd, WaitEnd, token, ended)
    case CondTake(cond, mutex, begun, wait) => wait == 0 || Ref(stream, tid, wait, WaitBegin, cond, begun)
    case CondCall(cond, mutex, begun, wait) => wait == 0 || Ref(stream, tid, wait, WaitBegin, cond, begun)
    case CondEnd(cond, mutex, begun, ended, result, wait) => Ref(stream, tid, wait, WaitBegin, cond, begun)
    case _ => true
  }

  ghost predicate Refs(stream: seq<Record>, tid: nat, t: Thread) {
    PcRefs(stream, tid, t.pc) && HeldRefs(stream, tid, t.held)
  }

  /** References survive, except possibly the one to `used`. */
  ghost predicate KeepsRefs(before: seq<Record>, after: seq<Record>, used: nat) {
    forall tid, n, kind, token, at ::
      Ref(before, tid, n, kind, token, at) && n != used ==> Ref(after, tid, n, kind, token, at)
  }

  /** A draft may be written: its link is a reference that this thread holds. */
  ghost predicate Ready(stream: seq<Record>, tid: nat, d: Draft) {
    match d.kind
    case WaitBegin => d.related == 0
    case WaitEnd => exists at :: Ref(stream, tid, d.related, WaitBegin, d.token, at)
                                 && d.duration == Some(Elapsed(at, d.at))
    case Acquire => d.related == 0 || Ref(stream, tid, d.related, WaitEnd, d.token, d.at)
    case Release => exists at :: Ref(stream, tid, d.related, Acquire, d.token, at)
                                 && d.hold == Some(Elapsed(at, d.at))
  }

  lemma AppendOther(stream: seq<Record>, record: Record)
    requires Causal(stream) && !record.Event?
    ensures Causal(stream + [record]) && KeepsRefs(stream, stream + [record], 0)
  {
    var after := stream + [record];
    forall i | 0 <= i < |after| && after[i].Event? ensures ProperLink(after, i) {
      assert ProperLink(stream, i);
    }
  }

  lemma AppendEventCausal(stream: seq<Record>, tid: nat, d: Draft)
    requires Causal(stream) && Ready(stream, tid, d)
    ensures Causal(stream + [Event(|stream|, tid, d)])
  {
    var after := stream + [Event(|stream|, tid, d)];
    forall i | 0 <= i < |after| && after[i].Event? ensures ProperLink(after, i) {
      if i < |stream| {
        assert ProperLink(stream, i);
      }
    }
  }

  lemma AppendEventRefs(stream: seq<Record>, tid: nat, d: Draft)
    requires Causal(stream) && Ready(stream, tid, d) && stream != []
    ensures var after := stream + [Event(|stream|, tid, d)];
            && KeepsRefs(stream, after, d.related)
            && (d.kind != WaitEnd || d.verdict == Acquired ==> Ref(after, tid, |stream|, d.kind, d.token, d.at))
  {
    var after := stream + [Event(|stream|, tid, d)];
    forall i | 0 <= i < |stream| && stream[i].Event? ensures stream[i].draft.related < |stream| {
      assert ProperLink(stream, i);
    }
  }

  // ----- The channel keeps its links in order

  /** While the probe is active the next event's number is its place in the stream. */
  ghost predicate Sound(c: Channel) {
    Causal(c.stream) && c.stream != [] && (c.active ==> |c.stream| == c.sequence + 1)
  }

  lemma KeepsMore(before: seq<Record>, after: seq<Record>, used: nat)
    requires KeepsRefs(before, after, 0)
    ensures KeepsRefs(before, after, used)
  {
  }

  lemma EmitIsSound(max: nat, c: Channel, tid: nat, d: Draft, written: bool)
    requires Sound(c) && Ready(c.stream, tid, d)
    ensures Sound(EmitEvent(max, c, tid, d, written).channel)
  {
    var after := EmitEvent(max, c, tid, d, written).channel;
    if !c.active || c.emitted >= max {
      assert after.stream == c.stream;
    } else if written {
      AppendEventCausal(c.stream, tid, d);
      assert after.stream == c.stream + [Event(|c.stream|, tid, d)];
    } else {
      AppendOther(c.stream, Torn);
      assert after.stream == c.stream + [Torn] && !after.active;
    }
  }

  lemma EmitKeepsRefs(max: nat, c: Channel, tid: nat, d: Draft, written: bool)
    requires Sound(c) && Ready(c.stream, tid, d)
    ensures var e := EmitEvent(max, c, tid, d, written);
            && KeepsRefs(c.stream, e.channel.stream, d.related)
            && (e.sequence != 0 && (d.kind != WaitEnd || d.verdict == Acquired)
                ==> Ref(e.channel.stream, tid, e.sequence, d.kind, d.token, d.at))
  {
    var e := EmitEvent(max, c, tid, d, written);
    if !c.active || c.emitted >= max {
      assert e.channel.stream == c.stream && e.sequence == 0;
    } else if written {
      AppendEventRefs(c.stream, tid, d);
      assert e.channel.stream == c.stream + [Event(|c.stream|, tid, d)];
    } else {
      AppendOther(c.stream, Torn);
      KeepsMore(c.stream, c.stream + [Torn], d.related);
      assert e.channel.stream == c.stream + [Torn] && e.sequence == 0;
    }
  }

  /** What one thread does leaves every other thread's references alone. */
  ghost predicate OthersKeep(before: seq<Record>, after: seq<Record>, tid: nat) {
    forall other, n, kind, token, at ::
      other != tid && Ref(before, other, n, kind, token, at) ==> Ref(after, other, n, kind, token, at)
  }

  lemma UsedIsOwn(before: seq<Record>, after: seq<Record>, tid: nat, used: nat)
    requires KeepsRefs(before, after, used)
    requires used == 0 || exists kind, token :: Names(before, tid, used, kind, token)
    ensures OthersKeep(before, after, tid)
  {
  }

  lemma HeldRefsKept(before: seq<Record>, after: seq<Record>, tid: nat, held: seq<Held>, used: nat)
    requires KeepsRefs(before, after, used) && HeldRefs(before, tid, held)
    requires used == 0 || forall i | 0 <= i < |held| :: held[i].acquired != used
    ensures HeldRefs(after, tid, held)
  {
  }

  /** One emission by the thread whose table is `held`, with a link that is not in the table. */
  lemma EmitForThread(max: nat, c: Channel, tid: nat, d: Draft, written: bool, held: seq<Held>)
    requires Sound(c) && Ready(c.stream, tid, d) && HeldRefs(c.stream, tid, held)
    requires d.related == 0 || forall i | 0 <= i < |held| :: held[i].acquired != d.related
    ensures var e := EmitEvent(max, c, tid, d, written);
            && Sound(e.channel)
            && HeldRefs(e.channel.stream, tid, held)
            && OthersKeep(c.stream, e.channel.stream, tid)
            && (e.sequence != 0 && (d.kind != WaitEnd || d.verdict == Acquired)
                ==> Ref(e.channel.stream, tid, e.sequence, d.kind, d.token, d.at))
            && KeepsRefs(c.stream, e.channel.stream, d.related)
  {
    var e := EmitEvent(max, c, tid, d, written);
    EmitIsSound(max, c, tid, d, written);
    EmitKeepsRefs(max, c, tid, d, written);
    HeldRefsKept(c.stream, e.channel.stream, tid, held, d.related);
    UsedIsOwn(c.stream, e.channel.stream, tid, d.related);
  }

  lemma WaitRefIsNotHeld(stream: seq<Record>, tid: nat, held: seq<Held>, n: nat, kind: EventKind, token: Token, at: nat)
    requires HeldRefs(stream, tid, held) && Ref(stream, tid, n, kind, token, at) && kind != Acquire
    ensures forall i | 0 <= i < |held| :: held[i].acquired != n
  {
  }

  lemma TakenRefs(stream: seq<Record>, tid: nat, held: seq<Held>, token: Token)
    requires HeldRefs(stream, tid, held) && TakeNewest(held, token).Some?
    ensures var t := TakeNewest(held, token).value;
            && HeldRefs(stream, tid, t.rest)
            && t.entry.token == token
            && (t.entry.acquired != 0 ==>
                  && Ref(stream, tid, t.entry.acquired, Acquire, token, t.entry.at)
                  && forall i | 0 <= i < |t.rest| :: t.rest[i].acquired != t.entry.acquired)
  {
    var k := NewestMatch(held, token);
    var rest := held[..k] + held[k + 1..];
    assert forall i | 0 <= i < |rest| :: rest[i] == held[if i < k then i else i + 1];
  }

  lemma PushedRefs(stream: seq<Record>, tid: nat, held: seq<Held>, entry: Held)
    requires HeldRefs(stream, tid, held)
    requires entry.acquired != 0 ==> Ref(stream, tid, entry.acquired, Acquire, entry.token, entry.at)
    requires entry.acquired == 0 || forall i | 0 <= i < |held| :: held[i].acquired != entry.acquired
    ensures HeldRefs(stream, tid, held + [entry])
  {
  }

  /** A new number is larger than every number in the table. */
  lemma NewIsNotHeld(c: Channel, tid: nat, held: seq<Held>)
    requires Sound(c) && c.active && HeldRefs(c.stream, tid, held)
    ensures forall i | 0 <= i < |held| :: held[i].acquired != c.sequence + 1
  {
  }

  // ----- Steps

  ghost predicate StepInv(before: Channel, j: Joint, tid: nat) {
    Sound(j.channel) && Refs(j.channel.stream, tid, j.thread) && OthersKeep(before.stream, j.channel.stream, tid)
  }

  lemma ReleaseTaken(max: nat, tid: nat, j: Joint, t: Taken, at: nat, written: bool)
    requires Sound(j.channel) && HeldRefs(j.channel.stream, tid, j.thread.held)
    requires t.entry.acquired != 0 && TakeNewest(j.thread.held, t.entry.token) == Some(t)
    ensures var k := EmitRelease(max, tid, j, t, at, written);
            && Sound(k.channel) && HeldRefs(k.channel.stream, tid, k.thread.held)
            && OthersKeep(j.channel.stream, k.channel.stream, tid)
            && KeepsRefs(j.channel.stream, k.channel.stream, t.entry.acquired)
            && k.thread.held == t.rest
  {
    TakenRefs(j.channel.stream, tid, j.thread.held, t.entry.token);
    EmitForThread(max, j.channel, tid, ReleaseDraft(t.entry, at), written, t.rest);
  }

  lemma {:induction false} RecordReleaseIsSound(max: nat, tid: nat, j: Joint, candidates: seq<Token>, at: nat, written: bool)
    requires Sound(j.channel) && HeldRefs(j.channel.stream, tid, j.thread.held)
    ensures var k := RecordRelease(max, tid, j, candidates, at, written);
            && Sound(k.channel) && HeldRefs(k.channel.stream, tid, k.thread.held)
            && OthersKeep(j.channel.stream, k.channel.stream, tid)
    decreases |candidates|
  {
    if candidates != [] {
      var taken := TakeNewest(j.thread.held, candidates[0]);
      if taken.None? {
        RecordReleaseIsSound(max, tid, j, candidates[1..], at, written);
      } else {
        TakenRefs(j.channel.stream, tid, j.thread.held, candidates[0]);
        if taken.value.entry.acquired == 0 {
          RecordReleaseIsSound(max, tid, j.(thread := j.thread.(held := taken.value.rest)), candidates[1..], at, written);
        } else {
          ReleaseTaken(max, tid, j, taken.value, at, written);
        }
      }
    }
  }

  lemma CondTakeIsSound(max: nat, tid: nat, j: Joint, written: bool)
    requires j.thread.pc.CondTake?
    requires Sound(j.channel) && Refs(j.channel.stream, tid, j.thread)
    ensures StepInv(j.channel, Advance(max, tid, j, written), tid)
  {
    var pc := j.thread.pc;
    var taken := TakeNewest(j.thread.held, pc.mutex);
    if taken.Some? {
      TakenRefs(j.channel.stream, tid, j.thread.held, pc.mutex);
      if taken.value.entry.acquired != 0 {
        ReleaseTaken(max, tid, j, taken.value, pc.begun, written);
      }
    }
  }

  lemma CondPushIsSound(max: nat, tid: nat, j: Joint, written: bool)
    requires j.thread.pc.CondPush?
    requires Sound(j.channel) && Refs(j.channel.stream, tid, j.thread)
    ensures StepInv(j.channel, Advance(max, tid, j, written), tid)
  {
    var pc := j.thread.pc;
    var c, held := j.channel, j.thread.held;
    if pc.result == 0 || pc.result == ETIMEDOUT {
      if pc.waitEnd != 0 && |held| < HELD_SLOTS {
        var e := EmitEvent(max, c, tid, AcquireDraft(pc.mutex, pc.ended, 0), written);
        EmitForThread(max, c, tid, AcquireDraft(pc.mutex, pc.ended, 0), written, held);
        if e.sequence != 0 {
          NewIsNotHeld(c, tid, held);
        }
        PushedRefs(e.channel.stream, tid, held, Held(pc.mutex, e.sequence, pc.ended));
      } else if |held| < HELD_SLOTS {
        PushedRefs(c.stream, tid, held, Held(pc.mutex, 0, pc.ended));
      }
    }
  }

  lemma LockAcquireIsSound(max: nat, tid: nat, j: Joint, written: bool)
    requires j.thread.pc.LockAcquire?
    requires Sound(j.channel) && Refs(j.channel.stream, tid, j.thread)
    ensures StepInv(j.channel, Advance(max, tid, j, written), tid)
  {
    var pc := j.thread.pc;
    var c, held := j.channel, j.thread.held;
    var d := AcquireDraft(pc.token, pc.ended, pc.waitEnd);
    WaitRefIsNotHeld(c.stream, tid, held, pc.waitEnd, WaitEnd, pc.token, pc.ended);
    var e := EmitEvent(max, c, tid, d, written);
    EmitForThread(max, c, tid, d, written, held);
    if e.sequence != 0 {
      NewIsNotHeld(c, tid, held);
      PushedRefs(e.channel.stream, tid, held, Held(pc.token, e.sequence, pc.ended));
    }
  }

  lemma WaitEndIsSound(max: nat, tid: nat, j: Joint, written: bool)
    requires j.thread.pc.LockEnd? || j.thread.pc.CondEnd?
    requires Sound(j.channel) && Refs(j.channel.stream, tid, j.thread)
    ensures StepInv(j.channel, Advance(max, tid, j, written), tid)
  {
    var c, held := j.channel, j.thread.held;
    match j.thread.pc
    case LockEnd(token, begun, ended, result, wait) =>
      WaitRefIsNotHeld(c.stream, tid, held, wait, WaitBegin, token, begun);
      EmitForThread(max, c, tid, EndDraft(token, begun, ended, wait, LockVerdict(result)), written, held);
    case CondEnd(cond, mutex, begun, ended, result, wait) =>
      WaitRefIsNotHeld(c.stream, tid, held, wait, WaitBegin, cond, begun);
      EmitForThread(max, c, tid, EndDraft(cond, begun, ended, wait, CondVerdict(result)), written, held);
  }

  lemma WaitBeginIsSound(max: nat, tid: nat, j: Joint, written: bool)
    requires j.thread.pc.LockBegin? || j.thread.pc.LockLateBegin? || j.thread.pc.CondBegin? || j.thread.pc.CondLateBegin?
    requires Sound(j.channel) && Refs(j.channel.stream, tid, j.thread)
    ensures StepInv(j.channel, Advance(max, tid, j, written), tid)
  {
    var pc := j.thread.pc;
    var token := if pc.LockBegin? || pc.LockLateBegin? then pc.token else pc.cond;
    EmitForThread(max, j.channel, tid, BeginDraft(token, pc.begun), written, j.thread.held);
  }

  lemma AdvanceIsSound(max: nat, tid: nat, j: Joint, written: bool)
    requires Sound(j.channel) && Refs(j.channel.stream, tid, j.thread)
    ensures StepInv(j.channel, Advance(max, tid, j, written), tid)
  {
    match j.thread.pc
    case LockBegin(_, _) => WaitBeginIsSound(max, tid, j, written);
    case LockLateBegin(_, _, _, _) => WaitBeginIsSound(max, tid, j, written);
    case CondBegin(_, _, _) => WaitBeginIsSound(max, tid, j, written);
    case CondLateBegin(_, _, _, _, _) => WaitBeginIsSound(max, tid, j, written);
    case LockEnd(_, _, _, _, _) => WaitEndIsSound(max, tid, j, written);
    case CondEnd(_, _, _, _, _, _) => WaitEndIsSound(max, tid, j, written);
    case LockAcquire(_, _, _) => LockAcquireIsSound(max, tid, j, written);
    case UnlockRecord(candidates, at) => RecordReleaseIsSound(max, tid, j, candidates, at, written);
    case CondTake(_, _, _, _) => CondTakeIsSound(max, tid, j, written);
    case CondPush(_, _, _, _) => CondPushIsSound(max, tid, j, written);
    case _ =>
  }

  /** A call opens a wrapper without any reference of its own. */
  lemma CallIsSound(s: Settings, stream: seq<Record>, tid: nat, t: Thread, input: Input)
    requires t.pc == Idle && Refs(stream, tid, t)
    ensures Refs(stream, tid, Call(s, t, input))
  {
  }

  lemma ResumeIsSound(s: Settings, stream: seq<Record>, tid: nat, t: Thread, result: int, now: nat, keeps: bool)
    requires Refs(stream, tid, t)
    ensures Refs(stream, tid, Resume(s, t, result, now, keeps))
  {
    var u := Resume(s, t, result, now, keeps);
    assert u.held == t.held;
    match t.pc
    case LockCall(token, begun, wait) =>
      assert PcRefs(stream, tid, u.pc);
    case CondCall(cond, mutex, begun, wait) =>
      assert PcRefs(stream, tid, u.pc);
    case _ =>
      assert u == t;
  }

  lemma ThreadStepIsSound(s: Settings, tid: nat, j: Joint, input: Input)
    requires Sound(j.channel) && Refs(j.channel.stream, tid, j.thread)
    ensures StepInv(j.channel, ThreadStep(s, tid, j, input), tid)
  {
    match input
    case Critical(written) => AdvanceIsSound(s.maxEvents, tid, j, written);
    case Return(result, now, keeps) => ResumeIsSound(s, j.channel.stream, tid, j.thread, result, now, keeps);
    case Cancel =>
    case _ =>
      if j.thread.pc == Idle {
        CallIsSound(s, j.channel.stream, tid, j.thread, input);
      }
  }

  // ----- What a step does not look at

  /** The channel with other records in its stream. */
  function With(c: Channel, stream: seq<Record>): Channel {
    c.(stream := stream)
  }

  lemma {:induction false} ReleaseElsewhere(max: nat, tid: nat, j: Joint, candidates: seq<Token>, at: nat, written: bool,
                                            stream: seq<Record>)
    ensures RecordRelease(max, tid, j, candidates, at, written).thread ==
            RecordRelease(max, tid, j.(channel := With(j.channel, stream)), candidates, at, written).thread
    decreases |candidates|
  {
    if candidates != [] {
      match TakeNewest(j.thread.held, candidates[0])
      case None => ReleaseElsewhere(max, tid, j, candidates[1..], at, written, stream);
      case Some(t) =>
        if t.entry.acquired == 0 {
          ReleaseElsewhere(max, tid, j.(thread := j.thread.(held := t.rest)), candidates[1..], at, written, stream);
        }
    }
  }

  lemma AdvanceElsewhere(max: nat, tid: nat, j: Joint, written: bool, stream: seq<Record>)
    ensures Advance(max, tid, j, written).thread == Advance(max, tid, j.(channel := With(j.channel, stream)), written).thread
  {
    match j.thread.pc
    case UnlockRecord(candidates, at) => ReleaseElsewhere(max, tid, j, candidates, at, written, stream);
    case _ =>
  }

  /** What one effect writes. */
  function Written(max: nat, tid: nat, c: Channel, f: Effect): seq<Record> {
    if !f.emits || !c.active || c.emitted >= max then []
    else [if f.written then Event(c.sequence + 1, tid, f.draft) else Torn]
  }

  lemma TakeWrites(max: nat, tid: nat, c: Channel, f: Effect)
    ensures Take(max, tid, c, f).stream == c.stream + Written(max, tid, c, f)
  {
    assert c.stream + [] == c.stream;
  }

  lemma TakeElsewhere(max: nat, tid: nat, c: Channel, f: Effect, stream: seq<Record>)
    ensures Take(max, tid, With(c, stream), f) == With(Take(max, tid, c, f), stream + Written(max, tid, c, f))
  {
    var d := With(c, stream);
    var e, g := EmitEvent(max, c, tid, f.draft, f.written).channel, EmitEvent(max, d, tid, f.draft, f.written).channel;
    assert stream + [] == stream;
    if f.emits {
      assert g == With(e, stream + Written(max, tid, c, f));
    }
  }

  /** No step looks at what the stream holds: it appends the same to any other. */
  lemma StepElsewhere(s: Settings, tid: nat, j: Joint, input: Input, stream: seq<Record>) returns (added: seq<Record>)
    ensures var k := ThreadStep(s, tid, j, input);
            && k.channel.stream == j.channel.stream + added
            && ThreadStep(s, tid, j.(channel := With(j.channel, stream)), input)
               == k.(channel := With(k.channel, stream + added))
  {
    var other := j.(channel := With(j.channel, stream));
    var f := ThreadStepEffect(s, tid, j, input);
    var g := ThreadStepEffect(s, tid, other, input);
    assert f == g;
    added := Written(s.maxEvents, tid, j.channel, f);
    TakeWrites(s.maxEvents, tid, j.channel, f);
    TakeElsewhere(s.maxEvents, tid, j.channel, f, stream);
    if input.Critical? {
      AdvanceElsewhere(s.maxEvents, tid, j, input.written, stream);
    }
  }

  // ----- Runs

  /** The records by number: record n is at place n, whatever came before the header. */
  function Numbered(r: Run, h: nat): seq<Record> {
    [Header] + if r.phase == Loaded && h < |r.channel.stream| then Without(r.channel.stream, h) else r.channel.stream
  }

  function Renumbered(r: Run, h: nat): Channel {
    With(r.channel, Numbered(r, h))
  }

  ghost predicate CausalInv(r: Run, h: nat) {
    && Sound(Renumbered(r, h))
    && forall tid | tid in r.threads :: Refs(Numbered(r, h), tid, r.threads[tid])
  }

  lemma OtherRefs(before: seq<Record>, after: seq<Record>, tid: nat, other: nat, t: Thread)
    requires OthersKeep(before, after, tid) && other != tid && Refs(before, other, t)
    ensures Refs(after, other, t)
  {
  }

  lemma RefsKept(before: seq<Record>, after: seq<Record>, tid: nat, t: Thread)
    requires KeepsRefs(before, after, 0) && Refs(before, tid, t)
    ensures Refs(after, tid, t)
  {
    HeldRefsKept(before, after, tid, t.held, 0);
  }

  lemma LastRecordIsCausal(stream: seq<Record>, last: Record, threads: map<nat, Thread>)
    requires Causal(stream) && !last.Event? && forall tid | tid in threads :: Refs(stream, tid, threads[tid])
    ensures Causal(stream + [last]) && forall tid | tid in threads :: Refs(stream + [last], tid, threads[tid])
  {
    AppendOther(stream, last);
    forall tid | tid in threads ensures Refs(stream + [last], tid, threads[tid]) {
      RefsKept(stream, stream + [last], tid, threads[tid]);
    }
  }

  lemma NumberedGrows(r: Run, next: Run, h: nat, added: seq<Record>)
    requires r.phase == next.phase && next.channel.stream == r.channel.stream + added
    requires r.phase == Loaded ==> h < |r.channel.stream|
    ensures Numbered(next, h) == Numbered(r, h) + added
  {
    if r.phase == Loaded {
      WithoutGrows(r.channel.stream, h, added);
    }
  }

  lemma FooterIsCausal(s: Settings, r: Run, h: nat, written: bool)
    requires CausalInv(r, h) && OrderInv(s.maxEvents, r, h)
    ensures CausalInv(Apply(s, r, Finalize(written)), h)
  {
    var c := r.channel;
    if r.phase == Loaded && c.active {
      var last := if written then Footer(c.sequence + 1, c.emitted, c.lost, c.truncated) else Torn;
      LastRecordIsCausal(Numbered(r, h), last, r.threads);
      NumberedGrows(r, Apply(s, r, Finalize(written)), h, [last]);
    }
  }

  lemma HeaderIsCausal(s: Settings, r: Run, written: bool)
    requires r.phase == Loading && CausalInv(r, 0)
    ensures CausalInv(Apply(s, r, LoadHeader(written)), |r.channel.stream|)
  {
    var next := Apply(s, r, LoadHeader(written));
    assert Without(next.channel.stream, |r.channel.stream|) == r.channel.stream;
    assert Numbered(next, |r.channel.stream|) == Numbered(r, 0);
  }

  lemma ActIsCausal(s: Settings, r: Run, tid: nat, input: Input, h: nat)
    requires r.phase != Unloaded && CausalInv(r, h) && OrderInv(s.maxEvents, r, h)
    ensures CausalInv(Apply(s, r, Act(tid, input)), h)
  {
    var stream, next := Numbered(r, h), Apply(s, r, Act(tid, input));
    var j := Joint(r.channel, ThreadOf(r, tid));
    var added := StepElsewhere(s, tid, j, input, stream);
    var here := j.(channel := With(r.channel, stream));
    assert Refs(stream, tid, j.thread);
    ThreadStepIsSound(s, tid, here, input);
    NumberedGrows(r, next, h, added);
    forall other | other in r.threads && other != tid ensures Refs(stream + added, other, r.threads[other]) {
      OtherRefs(stream, stream + added, tid, other, r.threads[other]);
    }
  }

  lemma LoadIsCausal(s: Settings, r: Run, h: nat)
    requires CausalInv(r, h) && OrderInv(s.maxEvents, r, h)
    ensures CausalInv(Apply(s, r, LoadPublish), h)
  {
    var next := Apply(s, r, LoadPublish);
    assert r.phase == Unloaded ==> Numbered(next, h) == [Header];
  }

  lemma ApplyIsCausal(s: Settings, r: Run, step: Step, h: nat) returns (after: nat)
    requires CausalInv(r, h) && OrderInv(s.maxEvents, r, h)
    ensures CausalInv(Apply(s, r, step), after) && OrderInv(s.maxEvents, Apply(s, r, step), after)
  {
    after := ApplyKeepsOrder(s, r, step, h);
    match step
    case LoadPublish => LoadIsCausal(s, r, h);
    case LoadHeader(written) =>
      if r.phase == Loading {
        HeaderIsCausal(s, r, written);
      }
    case Finalize(written) => FooterIsCausal(s, r, h, written);
    case Act(tid, input) =>
      if r.phase != Unloaded {
        ActIsCausal(s, r, tid, input, h);
      }
    case Leave(tid) =>
  }

  lemma {:induction false} ExecuteIsCausal(s: Settings, r: Run, steps: seq<Step>, h: nat) returns (after: nat)
    requires CausalInv(r, h) && OrderInv(s.maxEvents, r, h)
    ensures CausalInv(Execute(s, r, steps), after) && OrderInv(s.maxEvents, Execute(s, r, steps), after)
    decreases |steps|
  {
    after := h;
    if steps != [] {
      var next := ApplyIsCausal(s, r, steps[0], h);
      after := ExecuteIsCausal(s, Apply(s, r, steps[0]), steps[1..], next);
    }
  }

  lemma EveryRunInOrder(s: Settings, steps: seq<Step>) returns (h: nat)
    ensures var r := Execute(s, INITIAL, steps);
            && OrderInv(s.maxEvents, r, h) && Causal(Numbered(r, h))
            && forall i | 0 <= i < |Numbered(r, h)| && Numbered(r, h)[i].Event? :: Numbered(r, h)[i].sequence == i
  {
    h := ExecuteIsCausal(s, INITIAL, steps, 0);
  }

  /** In every run, whatever happened while the probe was loaded, every link is proper, no record is
      linked twice, and the number a link prints is the place of the record it names once the header
      is put first. */
  lemma EveryRunIsCausal(s: Settings, steps: seq<Step>) returns (h: nat)
    ensures var r := Execute(s, INITIAL, steps);
            var stream := Numbered(r, h);
            && (r.phase == Loaded ==> HeaderAt(r.channel, h))
            && Causal(stream)
            && forall i | 0 <= i < |stream| && stream[i].Event? :: stream[i].sequence == i
  {
    h := EveryRunInOrder(s, steps);
  }

  lemma OnlyOneHeader(max: nat, r: Run, h: nat)
    requires OrderInv(max, r, h) && r.phase == Loaded && h > 0
    ensures r.channel.stream[0] != Header
  {
    assert r.channel.stream[0] == Without(r.channel.stream, h)[0];
  }

  /** After a load without attempts the stream is in that order as it stands. */
  lemma SilentRunIsCausal(s: Settings, steps: seq<Step>)
    requires SilentLoad(s, INITIAL, steps)
    ensures var stream := Execute(s, INITIAL, steps).channel.stream;
            Causal(stream) && forall i | 0 <= i < |stream| && stream[i].Event? :: stream[i].sequence == i
  {
    var r := Execute(s, INITIAL, steps);
    SilentRun(s, INITIAL, steps);
    if r.phase == Loaded && r.channel.stream[0] == Header {
      var h := EveryRunInOrder(s, steps);
      if h > 0 {
        OnlyOneHeader(s.maxEvents, r, h);
      }
      assert Numbered(r, 0) == r.channel.stream;
    } else {
      assert r.channel.stream == [] || r.channel.stream == [Torn];
    }
  }
}
