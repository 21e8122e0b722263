/**
 The stream as a ledger: while nothing is lost, the records of a thread account for its table, for
 its open wait, and in exact mode for the locks it owns.
 */
module ProbeLedger {
  import opened Options
  import opened ProbeStream
  import opened HeldLocks
  import opened ProbeThreads
  import opened ProbeRuns
  import opened ProbeExactness

  /** How many records of each kind a thread has for one token. */
  datatype Books = Books(begins: nat, ends: nat, acquires: nat, releases: nat)

  function Book(b: Books, kind: EventKind): Books {
    match kind
    case WaitBegin => b.(begins := b.begins + 1)
    case WaitEnd => b.(ends := b.ends + 1)
    case Acquire => b.(acquires := b.acquires + 1)
    case Release => b.(releases := b.releases + 1)
  }

  function BooksOf(stream: seq<Record>, tid: nat, token: Token): Books {
    if stream == [] then Books(0, 0, 0, 0)
    else BookRecord(BooksOf(stream[..|stream| - 1], tid, token), stream[|stream| - 1], tid, token)
  }

  function BookRecord(b: Books, record: Record, tid: nat, token: Token): Books {
    if record.Event? && record.tid == tid && record.draft.token == token then Book(b, record.draft.kind) else b
  }

  /** The table's entries for a token that have an acquire record. */
  function RecordedHeld(held: seq<Held>, token: Token): nat {
    if held == [] then 0 else RecordedHeld(held[..|held| - 1], token) + One(held[|held| - 1], token)
  }

  function One(entry: Held, token: Token): nat {
    if entry.token == token && entry.acquired != 0 then 1 else 0
  }

  /** Whether a wait for the token has a begin record and no end record yet. */
  function OpenWaits(pc: Pc, token: Token): nat {
    match pc
    case LockCall(t, _, wait) => if wait != 0 && t == token then 1 else 0
    case LockEnd(t, _, _, _, _) => if t == token then 1 else 0
    case CondTake(cond, _, _, wait) => if wait != 0 && cond == token then 1 else 0
    case CondCall(cond, _, _, wait) => if wait != 0 && cond == token then 1 else 0
    case CondEnd(cond, _, _, _, _, _) => if cond == token then 1 else 0
    case _ => 0
  }

  predicate Balances(b: Books, held: nat, open: nat) {
    b.acquires == b.releases + held && b.begins == b.ends + open
  }

  predicate Ledger(stream: seq<Record>, tid: nat, t: Thread, token: Token) {
    Balances(BooksOf(stream, tid, token), RecordedHeld(t.held, token), OpenWaits(t.pc, token))
  }

  lemma AppendBooks(stream: seq<Record>, record: Record, tid: nat, token: Token)
    ensures BooksOf(stream + [record], tid, token) == BookRecord(BooksOf(stream, tid, token), record, tid, token)
  {
    assert (stream + [record])[..|stream|] == stream;
  }

  lemma PushCounts(held: seq<Held>, entry: Held, token: Token)
    ensures RecordedHeld(held + [entry], token) == RecordedHeld(held, token) + One(entry, token)
  {
    assert (held + [entry])[..|held|] == held;
  }

  lemma {:induction false} ConcatCounts(a: seq<Held>, b: seq<Held>, token: Token)
    ensures RecordedHeld(a + b, token) == RecordedHeld(a, token) + RecordedHeld(b, token)
  {
    if b == [] {
      assert a + b == a;
    } else {
      var last := |b| - 1;
      assert (a + b)[..|a + b| - 1] == a + b[..last];
      ConcatCounts(a, b[..last], token);
    }
  }

  lemma TakeCounts(held: seq<Held>, taken: Token, token: Token)
    requires TakeNewest(held, taken).Some?
    ensures var t := TakeNewest(held, taken).value;
            t.entry.token == taken && RecordedHeld(held, token) == RecordedHeld(t.rest, token) + One(t.entry, token)
  {
    var k := NewestMatch(held, taken);
    var before, after := held[..k], held[k + 1..];
    assert held == (before + [held[k]]) + after;
    ConcatCounts(before + [held[k]], after, token);
    PushCounts(before, held[k], token);
    ConcatCounts(before, after, token);
  }

  /** An emission that leaves the channel faithful is one more record in the books. */
  lemma EmissionBooks(max: nat, c: Channel, tid: nat, d: Draft, written: bool, token: Token)
    ensures var e := EmitEvent(max, c, tid, d, written);
            Faithful(e.channel) ==>
              e.sequence != 0
              && BooksOf(e.channel.stream, tid, token) ==
                 if d.token == token then Book(BooksOf(c.stream, tid, token), d.kind) else BooksOf(c.stream, tid, token)
  {
    AppendBooks(c.stream, Event(c.sequence + 1, tid, d), tid, token);
  }

  lemma OthersBooks(max: nat, c: Channel, tid: nat, d: Draft, written: bool, who: nat, token: Token)
    requires who != tid
    ensures BooksOf(EmitEvent(max, c, tid, d, written).channel.stream, who, token) == BooksOf(c.stream, who, token)
  {
    AppendBooks(c.stream, Event(c.sequence + 1, tid, d), who, token);
    AppendBooks(c.stream, Torn, who, token);
  }

  // ----- Steps

  lemma {:induction false} ReleaseBooks(max: nat, tid: nat, j: Joint, candidates: seq<Token>, at: nat, written: bool,
                                        token: Token)
    returns (releases: nat)
    ensures var k := RecordRelease(max, tid, j, candidates, at, written);
            Faithful(k.channel) ==>
              var b := BooksOf(j.channel.stream, tid, token);
              && BooksOf(k.channel.stream, tid, token) == b.(releases := b.releases + releases)
              && RecordedHeld(j.thread.held, token) == RecordedHeld(k.thread.held, token) + releases
    decreases |candidates|
  {
    releases := 0;
    if candidates != [] {
      var taken := TakeNewest(j.thread.held, candidates[0]);
      if taken.None? {
        releases := ReleaseBooks(max, tid, j, candidates[1..], at, written, token);
      } else {
        TakeCounts(j.thread.held, candidates[0], token);
        if taken.value.entry.acquired == 0 {
          var rest := j.(thread := j.thread.(held := taken.value.rest));
          releases := ReleaseBooks(max, tid, rest, candidates[1..], at, written, token);
        } else {
          EmissionBooks(max, j.channel, tid, ReleaseDraft(taken.value.entry, at), written, token);
          releases := One(taken.value.entry, token);
        }
      }
    }
  }

  /** One emission for a thread that keeps its table and moves to `next`. */
  lemma EmissionBalances(max: nat, c: Channel, tid: nat, d: Draft, written: bool, t: Thread, next: Pc, token: Token)
    requires Ledger(c.stream, tid, t, token) && (d.kind == WaitBegin || d.kind == WaitEnd)
    requires var mine := if d.token == token then 1 else 0;
             OpenWaits(next, token) == OpenWaits(t.pc, token) + (if d.kind == WaitBegin then mine else -mine)
    ensures var e := EmitEvent(max, c, tid, d, written);
            Faithful(e.channel) ==> Ledger(e.channel.stream, tid, t.(pc := next), token)
  {
    EmissionBooks(max, c, tid, d, written, token);
  }

  lemma BeginBooks(max: nat, tid: nat, j: Joint, written: bool, token: Token)
    requires j.thread.pc.LockBegin? || j.thread.pc.LockLateBegin? || j.thread.pc.CondBegin? || j.thread.pc.CondLateBegin?
    requires Ledger(j.channel.stream, tid, j.thread, token)
    ensures var k := Advance(max, tid, j, written);
            Faithful(k.channel) ==> Ledger(k.channel.stream, tid, k.thread, token)
  {
    var pc, k := j.thread.pc, Advance(max, tid, j, written);
    var of := if pc.LockBegin? || pc.LockLateBegin? then pc.token else pc.cond;
    var d := BeginDraft(of, pc.begun);
    var e := EmitEvent(max, j.channel, tid, d, written);
    assert k.channel == e.channel && k.thread == j.thread.(pc := k.thread.pc);
    FaithfulEmission(max, j.channel, tid, d, written);
    if Faithful(e.channel) {
      assert OpenWaits(k.thread.pc, token) == if of == token then 1 else 0;
      EmissionBalances(max, j.channel, tid, d, written, j.thread, k.thread.pc, token);
    }
  }

  lemma EndBooks(max: nat, tid: nat, j: Joint, written: bool, token: Token)
    requires j.thread.pc.LockEnd? || j.thread.pc.CondEnd?
    requires Ledger(j.channel.stream, tid, j.thread, token)
    ensures var k := Advance(max, tid, j, written);
            Faithful(k.channel) ==> Ledger(k.channel.stream, tid, k.thread, token)
  {
    var pc, k := j.thread.pc, Advance(max, tid, j, written);
    var d := if pc.LockEnd? then EndDraft(pc.token, pc.begun, pc.ended, pc.wait, LockVerdict(pc.result))
             else EndDraft(pc.cond, pc.begun, pc.ended, pc.wait, CondVerdict(pc.result));
    assert k.channel == EmitEvent(max, j.channel, tid, d, written).channel && k.thread == j.thread.(pc := k.thread.pc);
    EmissionBalances(max, j.channel, tid, d, written, j.thread, k.thread.pc, token);
  }

  /** An acquire record and the table entry for it, together. */
  lemma EntryBalances(max: nat, c: Channel, tid: nat, d: Draft, written: bool, t: Thread, token: Token)
    requires Ledger(c.stream, tid, t, token) && d.kind == Acquire && OpenWaits(t.pc, token) == 0
    ensures var e := EmitEvent(max, c, tid, d, written);
            Faithful(e.channel) ==>
              e.sequence != 0
              && Ledger(e.channel.stream, tid, Thread(Idle, t.held + [Held(d.token, e.sequence, d.at)], t.owned), token)
  {
    var e := EmitEvent(max, c, tid, d, written);
    EmissionBooks(max, c, tid, d, written, token);
    if Faithful(e.channel) {
      var entry := Held(d.token, e.sequence, d.at);
      PushCounts(t.held, entry, token);
      assert One(entry, token) == if d.token == token then 1 else 0;
      var b := BooksOf(c.stream, tid, token);
      assert BooksOf(e.channel.stream, tid, token) == b.(acquires := b.acquires + One(entry, token));
    }
  }

  /** An acquire record and its table entry come together, or something is lost. */
  lemma AcquireBooks(max: nat, tid: nat, j: Joint, written: bool, token: Token)
    requires j.thread.pc.LockAcquire? && j.channel.configured
    requires Ledger(j.channel.stream, tid, j.thread, token)
    ensures var k := Advance(max, tid, j, written);
            Faithful(k.channel) ==> Ledger(k.channel.stream, tid, k.thread, token)
  {
    var pc, k := j.thread.pc, Advance(max, tid, j, written);
    var d := AcquireDraft(pc.token, pc.ended, pc.waitEnd);
    var e := EmitEvent(max, j.channel, tid, d, written);
    EntryBalances(max, j.channel, tid, d, written, j.thread, token);
    if Faithful(k.channel) {
      assert Faithful(e.channel) && k.channel == e.channel;
      assert k.thread == Thread(Idle, j.thread.held + [Held(pc.token, e.sequence, pc.ended)], j.thread.owned);
    }
  }

  lemma PushBooks(max: nat, tid: nat, j: Joint, written: bool, token: Token)
    requires j.thread.pc.CondPush? && j.channel.configured
    requires Ledger(j.channel.stream, tid, j.thread, token)
    ensures var k := Advance(max, tid, j, written);
            Faithful(k.channel) ==> Ledger(k.channel.stream, tid, k.thread, token)
  {
    var pc, held := j.thread.pc, j.thread.held;
    if pc.result == 0 || pc.result == ETIMEDOUT {
      if pc.waitEnd != 0 && |held| < HELD_SLOTS {
        EntryBalances(max, j.channel, tid, AcquireDraft(pc.mutex, pc.ended, 0), written, j.thread, token);
      } else {
        PushCounts(held, Held(pc.mutex, 0, pc.ended), token);
      }
    }
  }

  lemma TakeBooks(max: nat, tid: nat, j: Joint, written: bool, token: Token)
    requires j.thread.pc.CondTake? || j.thread.pc.UnlockRecord?
    requires Ledger(j.channel.stream, tid, j.thread, token)
    ensures var k := Advance(max, tid, j, written);
            Faithful(k.channel) ==> Ledger(k.channel.stream, tid, k.thread, token)
  {
    match j.thread.pc
    case UnlockRecord(candidates, at) =>
      var releases := ReleaseBooks(max, tid, j, candidates, at, written, token);
    case CondTake(cond, mutex, begun, wait) =>
      var releases := ReleaseBooks(max, tid, j, [mutex], begun, written, token);
      assert [mutex][1..] == [];
      assert TakeForWait(max, tid, j, mutex, begun, written) == RecordRelease(max, tid, j, [mutex], begun, written);
    case _ =>
  }

  lemma AdvanceBooks(max: nat, tid: nat, j: Joint, written: bool, token: Token)
    requires j.channel.configured && Ledger(j.channel.stream, tid, j.thread, token)
    ensures var k := Advance(max, tid, j, written);
            Faithful(k.channel) ==> Ledger(k.channel.stream, tid, k.thread, token)
  {
    match j.thread.pc
    case LockEnd(_, _, _, _, _) => EndBooks(max, tid, j, written, token);
    case CondEnd(_, _, _, _, _, _) => EndBooks(max, tid, j, written, token);
    case LockAcquire(_, _, _) => AcquireBooks(max, tid, j, written, token);
    case CondPush(_, _, _, _) => PushBooks(max, tid, j, written, token);
    case CondTake(_, _, _, _) => TakeBooks(max, tid, j, written, token);
    case UnlockRecord(_, _) => TakeBooks(max, tid, j, written, token);
    case LockBegin(_, _) => BeginBooks(max, tid, j, written, token);
    case LockLateBegin(_, _, _, _) => BeginBooks(max, tid, j, written, token);
    case CondBegin(_, _, _) => BeginBooks(max, tid, j, written, token);
    case CondLateBegin(_, _, _, _, _) => BeginBooks(max, tid, j, written, token);
    case _ =>
  }

  /** Only exact mode writes a begin record before the real call. */
  predicate EarlyOnlyInExact(s: Settings, pc: Pc) {
    (pc.LockCall? || pc.CondTake? || pc.CondCall?) && pc.wait != 0 ==> s.exact
  }

  lemma ResumeLockBooks(s: Settings, t: Thread, result: int, now: nat, keeps: bool, token: Token)
    requires t.pc.LockCall?
    requires EarlyOnlyInExact(s, t.pc)
    ensures var u := Resume(s, t, result, now, keeps);
            u.held == t.held && OpenWaits(u.pc, token) == OpenWaits(t.pc, token) && EarlyOnlyInExact(s, u.pc)
  {
    var pc, u := t.pc, Resume(s, t, result, now, keeps);
    if pc.wait != 0 {
      assert u.pc == LockEnd(pc.token, pc.begun, now, result, pc.wait);
    } else {
      assert u.pc.LockLateBegin? || u.pc.Idle?;
    }
  }

  lemma ResumeWaitBooks(s: Settings, t: Thread, result: int, now: nat, keeps: bool, token: Token)
    requires t.pc.CondCall?
    requires EarlyOnlyInExact(s, t.pc)
    ensures var u := Resume(s, t, result, now, keeps);
            u.held == t.held && OpenWaits(u.pc, token) == OpenWaits(t.pc, token) && EarlyOnlyInExact(s, u.pc)
  {
    var pc, u := t.pc, Resume(s, t, result, now, keeps);
    if pc.wait != 0 {
      assert u.pc == CondEnd(pc.cond, pc.mutex, pc.begun, now, result, pc.wait);
    } else {
      assert u.pc.CondLateBegin? || u.pc.CondPush?;
    }
  }

  lemma ResumeBooks(s: Settings, t: Thread, result: int, now: nat, keeps: bool, token: Token)
    requires EarlyOnlyInExact(s, t.pc)
    ensures var u := Resume(s, t, result, now, keeps);
            u.held == t.held && OpenWaits(u.pc, token) == OpenWaits(t.pc, token) && EarlyOnlyInExact(s, u.pc)
  {
    if t.pc.LockCall? {
      ResumeLockBooks(s, t, result, now, keeps, token);
    } else if t.pc.CondCall? {
      ResumeWaitBooks(s, t, result, now, keeps, token);
    } else {
      assert Resume(s, t, result, now, keeps) == t;
    }
  }

  lemma CallBooks(s: Settings, t: Thread, input: Input, token: Token)
    requires t.pc == Idle
    ensures var u := Call(s, t, input);
            u.held == t.held && OpenWaits(u.pc, token) == 0 && FitsMode(s, u.pc)
  {
  }

  lemma AdvanceFitsMode(s: Settings, tid: nat, j: Joint, written: bool)
    requires FitsMode(s, j.thread.pc)
    ensures FitsMode(s, Advance(s.maxEvents, tid, j, written).thread.pc)
  {
  }

  ghost predicate FitsMode(s: Settings, pc: Pc) {
    EarlyOnlyInExact(s, pc) && (pc.LockBegin? || pc.CondBegin? ==> s.exact)
  }

  lemma CriticalBooks(s: Settings, tid: nat, j: Joint, written: bool, token: Token)
    requires j.channel.configured && FitsMode(s, j.thread.pc)
    requires Faithful(j.channel) ==> Ledger(j.channel.stream, tid, j.thread, token)
    ensures var k := Advance(s.maxEvents, tid, j, written);
            FitsMode(s, k.thread.pc) && (Faithful(k.channel) ==> Ledger(k.channel.stream, tid, k.thread, token))
  {
    assert ThreadStep(s, tid, j, Critical(written)) == Advance(s.maxEvents, tid, j, written);
    FaithfulOnlyEnds(s, tid, j, Critical(written));
    AdvanceFitsMode(s, tid, j, written);
    if Faithful(j.channel) {
      AdvanceBooks(s.maxEvents, tid, j, written, token);
    }
  }

  lemma ReturnBooks(s: Settings, tid: nat, j: Joint, input: Input, token: Token)
    requires j.channel.configured && FitsMode(s, j.thread.pc) && input.Return?
    requires Faithful(j.channel) ==> Ledger(j.channel.stream, tid, j.thread, token)
    ensures var k := ThreadStep(s, tid, j, input);
            FitsMode(s, k.thread.pc) && (Faithful(k.channel) ==> Ledger(k.channel.stream, tid, k.thread, token))
  {
    ResumeBooks(s, j.thread, input.result, input.now, input.keeps, token);
    assert ThreadStep(s, tid, j, input) == j.(thread := Resume(s, j.thread, input.result, input.now, input.keeps));
  }

  lemma CancelBooks(s: Settings, tid: nat, j: Joint, input: Input, token: Token)
    requires j.channel.configured && FitsMode(s, j.thread.pc) && input.Cancel?
    requires Faithful(j.channel) ==> Ledger(j.channel.stream, tid, j.thread, token)
    ensures var k := ThreadStep(s, tid, j, input);
            FitsMode(s, k.thread.pc) && (Faithful(k.channel) ==> Ledger(k.channel.stream, tid, k.thread, token))
  {
    var k := ThreadStep(s, tid, j, input);
    if j.thread.pc.CondCall? {
      assert k.channel == MarkLost(j.channel, |j.thread.held| + 1) && k.channel.truncated;
    } else {
      assert k == j;
    }
  }

  lemma EnterBooks(s: Settings, tid: nat, j: Joint, input: Input, token: Token)
    requires j.channel.configured && FitsMode(s, j.thread.pc) && !input.Critical? && !input.Return? && !input.Cancel?
    requires Faithful(j.channel) ==> Ledger(j.channel.stream, tid, j.thread, token)
    ensures var k := ThreadStep(s, tid, j, input);
            FitsMode(s, k.thread.pc) && (Faithful(k.channel) ==> Ledger(k.channel.stream, tid, k.thread, token))
  {
    var k := ThreadStep(s, tid, j, input);
    if j.thread.pc == Idle && j.channel.active {
      CallBooks(s, j.thread, input, token);
      assert k == j.(thread := Call(s, j.thread, input));
    } else {
      assert k == j;
    }
  }

  lemma StepBooks(s: Settings, tid: nat, j: Joint, input: Input, token: Token)
    requires j.channel.configured && FitsMode(s, j.thread.pc)
    requires Faithful(j.channel) ==> Ledger(j.channel.stream, tid, j.thread, token)
    ensures var k := ThreadStep(s, tid, j, input);
            FitsMode(s, k.thread.pc) && (Faithful(k.channel) ==> Ledger(k.channel.stream, tid, k.thread, token))
  {
    match input
    case Critical(written) => CriticalBooks(s, tid, j, written, token);
    case Return(_, _, _) => ReturnBooks(s, tid, j, input, token);
    case Cancel => CancelBooks(s, tid, j, input, token);
    case _ => EnterBooks(s, tid, j, input, token);
  }

  lemma StepLeavesOthers(s: Settings, tid: nat, j: Joint, input: Input, who: nat, token: Token)
    requires who != tid
    ensures BooksOf(ThreadStep(s, tid, j, input).channel.stream, who, token) == BooksOf(j.channel.stream, who, token)
  {
    var f := ThreadStepEffect(s, tid, j, input);
    if f.emits {
      OthersBooks(s.maxEvents, j.channel, tid, f.draft, f.written, who, token);
    }
  }

  // ----- Runs

  ghost predicate LedgerInv(s: Settings, r: Run, tid: nat, token: Token) {
    && (if r.phase == Unloaded then r.channel.stream == [] && r.threads == map[] else r.channel.configured)
    && FitsMode(s, ThreadOf(r, tid).pc)
    && (r.phase == Unloaded || Faithful(r.channel) ==> Ledger(r.channel.stream, tid, ThreadOf(r, tid), token))
  }

  lemma ApplyKeepsLedger(s: Settings, r: Run, step: Step, tid: nat, token: Token)
    requires LedgerInv(s, r, tid, token) && step != Leave(tid)
    ensures LedgerInv(s, Apply(s, r, step), tid, token)
  {
    match step
    case LoadHeader(written) => AppendBooks(r.channel.stream, Header, tid, token);
    case Act(who, input) =>
      if r.phase != Unloaded {
        var j := Joint(r.channel, ThreadOf(r, who));
        FaithfulOnlyEnds(s, who, j, input);
        if who == tid {
          StepBooks(s, tid, j, input, token);
        } else {
          StepLeavesOthers(s, who, j, input, tid, token);
        }
      }
    case _ =>
  }

  lemma {:induction false} ExecuteKeepsLedger(s: Settings, r: Run, steps: seq<Step>, tid: nat, token: Token)
    requires LedgerInv(s, r, tid, token) && Leave(tid) !in steps
    ensures LedgerInv(s, Execute(s, r, steps), tid, token)
    decreases |steps|
  {
    if steps != [] {
      ApplyKeepsLedger(s, r, steps[0], tid, token);
      ExecuteKeepsLedger(s, Apply(s, r, steps[0]), steps[1..], tid, token);
    }
  }

  /** In every run, in either mode, while nothing is lost and until the footer, a thread's records
      account for its state at every step: acquires minus releases of a token are its recorded
      entries in the table, and begins minus ends are the wait it is in. */
  lemma StreamIsALedger(s: Settings, steps: seq<Step>, tid: nat, token: Token)
    requires Leave(tid) !in steps
    ensures var r := Execute(s, INITIAL, steps);
            Faithful(r.channel) ==> Ledger(r.channel.stream, tid, ThreadOf(r, tid), token)
  {
    ExecuteKeepsLedger(s, INITIAL, steps, tid, token);
  }

  lemma {:induction false} AllRecordedCounts(held: seq<Held>, token: Token)
    requires AllRecorded(held)
    ensures RecordedHeld(held, token) == Tokens(held)[token]
  {
    if held != [] {
      var front := held[..|held| - 1];
      assert forall i | 0 <= i < |front| :: front[i] == held[i];
      AllRecordedCounts(front, token);
    }
  }

  /** In exact mode the stream alone tells which locks a thread owns between two wrappers: for
      every token, its acquire records minus its release records. */
  lemma OwnershipIsInTheStream(s: Settings, steps: seq<Step>, tid: nat, token: Token)
    requires s.exact && LawfulRun(s, INITIAL, steps) && Leave(tid) !in steps
    ensures var r := Execute(s, INITIAL, steps);
            Faithful(r.channel) && ThreadOf(r, tid).pc == Idle ==>
              var b := BooksOf(r.channel.stream, tid, token);
              b.acquires - b.releases == ThreadOf(r, tid).owned[token] && b.begins == b.ends
  {
    var r := Execute(s, INITIAL, steps);
    StreamIsALedger(s, steps, tid, token);
    TableIsExact(s, steps, tid);
    ExecuteKeepsExact(s, INITIAL, steps);
    if Faithful(r.channel) {
      assert AllRecorded(ThreadOf(r, tid).held);
      AllRecordedCounts(ThreadOf(r, tid).held, token);
    }
  }
}
