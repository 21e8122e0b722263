/**
 Exact mode: while nothing is lost and the footer is not written, a thread's table holds
 exactly the locks the thread owns.
 */
module ProbeExactness {
  import opened Options
  import opened ProbeStream
  import opened HeldLocks
  import opened ProbeThreads
  import opened ProbeRuns

  ghost predicate Faithful(c: Channel) {
    c.active && !c.truncated
  }

  ghost predicate AllRecorded(held: seq<Held>) {
    forall i | 0 <= i < |held| :: held[i].acquired != 0
  }

  /** What the table still lacks at each position of a wrapper. */
  ghost predicate Balanced(t: Thread) {
    AllRecorded(t.held) &&
    match t.pc
    case LockLateBegin(token, _, _, result) => Tokens(t.held) + Gained(token, result) == t.owned
    case LockEnd(token, _, _, result, _) => Tokens(t.held) + Gained(token, result) == t.owned
    case LockAcquire(token, _, _) => Tokens(t.held) + multiset{token} == t.owned
    case LockNoSlot => true
    case UnlockRecord(candidates, _) => exists k :: Owes(Tokens(t.held), t.owned, candidates, k)
    case CondTake(_, mutex, _, _) => Tokens(t.held) == t.owned && mutex in t.owned
    case CondBegin(_, mutex, _) => Tokens(t.held) == t.owned && mutex in t.owned
    case CondCall(_, mutex, _, _) => Tokens(t.held) + multiset{mutex} == t.owned
    case CondLateBegin(_, mutex, _, _, result) => Tokens(t.held) + multiset{mutex} == t.owned && WaitGoes(result)
    case CondEnd(_, mutex, _, _, result, _) => Tokens(t.held) + multiset{mutex} == t.owned && WaitGoes(result)
    case CondPush(mutex, _, result, waitEnd) =>
      Tokens(t.held) + multiset{mutex} == t.owned && WaitGoes(result) && waitEnd != 0
    case _ => Tokens(t.held) == t.owned
  }

  /** The released lock is the first candidate that the table still lists. */
  ghost predicate Owes(listed: multiset<Token>, owned: multiset<Token>, candidates: seq<Token>, k: int) {
    && 0 <= k < |candidates| && candidates[k] in listed
    && (forall i | 0 <= i < k :: candidates[i] !in listed)
    && owned + multiset{candidates[k]} == listed
  }

  ghost function Gained(token: Token, result: int): multiset<Token> {
    if result == 0 then multiset{token} else multiset{}
  }

  /** The results after which `record_condition_wait` puts the mutex back. */
  ghost predicate WaitGoes(result: int) {
    result == 0 || result == ETIMEDOUT
  }

  /** What the threads and the C library are assumed to do: unlock and wait only with a lock that
      is owned, never hold one rwlock for reading and for writing at once, and see only these
      results: a lock call does not return EOWNERDEAD, a wait returns 0 or ETIMEDOUT. */
  ghost predicate Lawful(t: Thread, input: Input) {
    match input
    case UnlockMutex(token, ok, _) => ok ==> token in t.owned
    case UnlockRwlock(address, writer, ok, _) =>
      ok ==> if writer
             then Token(address, RwlockWrite) in t.owned && Token(address, RwlockRead) !in t.owned
             else Token(address, RwlockRead) in t.owned
    case CallWait(_, mutex, _) => mutex in t.owned
    case Return(result, _, keeps) =>
      (t.pc.LockCall? ==> result != EOWNERDEAD) && (t.pc.CondCall? ==> keeps && WaitGoes(result))
    case _ => true
  }

  // ----- Emissions

  lemma TakenIsRecorded(held: seq<Held>, token: Token)
    requires AllRecorded(held) && TakeNewest(held, token).Some?
    ensures var t := TakeNewest(held, token).value;
            t.entry.acquired != 0 && AllRecorded(t.rest)
  {
  }

  lemma ReleaseBalances(max: nat, tid: nat, j: Joint, candidates: seq<Token>, at: nat, written: bool, k: nat)
    requires AllRecorded(j.thread.held)
    requires k < |candidates| && candidates[k] in Tokens(j.thread.held)
    requires forall i | 0 <= i < k :: candidates[i] !in Tokens(j.thread.held)
    ensures var r := RecordRelease(max, tid, j, candidates, at, written);
            && Tokens(r.thread.held) + multiset{candidates[k]} == Tokens(j.thread.held)
            && AllRecorded(r.thread.held)
            && r.thread.owned == j.thread.owned
    decreases k
  {
    var held := j.thread.held;
    TakeNewestTokens(held, candidates[0]);
    if k > 0 {
      assert TakeNewest(held, candidates[0]).None?;
      ReleaseBalances(max, tid, j, candidates[1..], at, written, k - 1);
    } else {
      var t := TakeNewest(held, candidates[0]).value;
      TakenIsRecorded(held, candidates[0]);
      assert RecordRelease(max, tid, j, candidates, at, written) == EmitRelease(max, tid, j, t, at, written);
    }
  }

  lemma PushBalances(held: seq<Held>, entry: Held)
    requires AllRecorded(held) && entry.acquired != 0
    ensures AllRecorded(held + [entry]) && Tokens(held + [entry]) == Tokens(held) + multiset{entry.token}
  {
    PushTokens(held, entry);
  }

  lemma UnlockBalances(max: nat, tid: nat, j: Joint, written: bool)
    requires j.thread.pc.UnlockRecord? && Balanced(j.thread)
    ensures Balanced(Advance(max, tid, j, written).thread)
  {
    var pc := j.thread.pc;
    var k :| Owes(Tokens(j.thread.held), j.thread.owned, pc.candidates, k);
    ReleaseBalances(max, tid, j, pc.candidates, pc.at, written, k);
    var r := RecordRelease(max, tid, j, pc.candidates, pc.at, written);
    Cancel1(Tokens(r.thread.held), j.thread.owned, pc.candidates[k]);
  }

  lemma Cancel1(a: multiset<Token>, b: multiset<Token>, token: Token)
    requires a + multiset{token} == b + multiset{token}
    ensures a == b
  {
    assert a == a + multiset{token} - multiset{token};
    assert b == b + multiset{token} - multiset{token};
  }

  lemma CondTakeBalances(max: nat, tid: nat, j: Joint, written: bool)
    requires j.thread.pc.CondTake? && Balanced(j.thread)
    ensures Balanced(Advance(max, tid, j, written).thread)
  {
    var held, mutex := j.thread.held, j.thread.pc.mutex;
    TakeNewestTokens(held, mutex);
    TakenIsRecorded(held, mutex);
    assert Advance(max, tid, j, written).thread.held == TakeNewest(held, mutex).value.rest;
  }

  lemma LockAcquireBalances(max: nat, tid: nat, j: Joint, written: bool)
    requires j.thread.pc.LockAcquire? && j.channel.configured && Balanced(j.thread)
    ensures var k := Advance(max, tid, j, written);
            Faithful(k.channel) ==> Balanced(k.thread)
  {
    var pc := j.thread.pc;
    var e := EmitEvent(max, j.channel, tid, AcquireDraft(pc.token, pc.ended, pc.waitEnd), written);
    if e.sequence != 0 {
      PushBalances(j.thread.held, Held(pc.token, e.sequence, pc.ended));
    }
  }

  lemma CondPushBalances(max: nat, tid: nat, j: Joint, written: bool)
    requires j.thread.pc.CondPush? && j.channel.configured && Balanced(j.thread)
    ensures var k := Advance(max, tid, j, written);
            Faithful(k.channel) ==> Balanced(k.thread)
  {
    var pc := j.thread.pc;
    var e := EmitEvent(max, j.channel, tid, AcquireDraft(pc.mutex, pc.ended, 0), written);
    if e.sequence != 0 {
      PushBalances(j.thread.held, Held(pc.mutex, e.sequence, pc.ended));
    }
  }

  /** An emission that leaves the channel faithful was written. */
  lemma FaithfulEmission(max: nat, c: Channel, tid: nat, d: Draft, written: bool)
    ensures var e := EmitEvent(max, c, tid, d, written); Faithful(e.channel) ==> e.sequence != 0
  {
  }

  lemma LockEndBalances(max: nat, tid: nat, j: Joint, written: bool)
    requires j.thread.pc.LockEnd? && Balanced(j.thread)
    ensures var k := Advance(max, tid, j, written);
            Faithful(k.channel) ==> Balanced(k.thread)
  {
    var pc, k := j.thread.pc, Advance(max, tid, j, written);
    FaithfulEmission(max, j.channel, tid, EndDraft(pc.token, pc.begun, pc.ended, pc.wait, LockVerdict(pc.result)), written);
    if Faithful(k.channel) {
      assert k.thread.held == j.thread.held && k.thread.owned == j.thread.owned;
      if pc.result != 0 {
        assert k.thread.pc.Idle? && Gained(pc.token, pc.result) == multiset{};
      } else {
        assert k.thread.pc.LockAcquire? || k.thread.pc.LockNoSlot?;
      }
    }
  }

  lemma LockBeginBalances(max: nat, tid: nat, j: Joint, written: bool)
    requires j.thread.pc.LockBegin? || j.thread.pc.LockLateBegin?
    requires Balanced(j.thread)
    ensures var k := Advance(max, tid, j, written);
            Faithful(k.channel) ==> Balanced(k.thread)
  {
  }

  lemma CondBeginBalances(max: nat, tid: nat, j: Joint, written: bool)
    requires j.thread.pc.CondBegin? || j.thread.pc.CondLateBegin?
    requires Balanced(j.thread)
    ensures var k := Advance(max, tid, j, written);
            Faithful(k.channel) ==> Balanced(k.thread)
  {
    var pc, k := j.thread.pc, Advance(max, tid, j, written);
    FaithfulEmission(max, j.channel, tid, BeginDraft(pc.cond, pc.begun), written);
    if Faithful(k.channel) {
      assert k.thread.held == j.thread.held && k.thread.owned == j.thread.owned;
      if pc.CondBegin? {
        assert k.thread.pc.CondTake?;
      } else {
        assert k.thread.pc.CondEnd?;
      }
    }
  }

  lemma CondEndBalances(max: nat, tid: nat, j: Joint, written: bool)
    requires j.thread.pc.CondEnd? && Balanced(j.thread)
    ensures var k := Advance(max, tid, j, written);
            Faithful(k.channel) ==> Balanced(k.thread)
  {
  }

  lemma OtherBalances(max: nat, tid: nat, j: Joint, written: bool)
    requires j.thread.pc.LockNoSlot? || j.thread.pc.Idle? || j.thread.pc.LockCall? || j.thread.pc.CondCall?
    requires j.channel.configured && Balanced(j.thread)
    ensures var k := Advance(max, tid, j, written);
            Faithful(k.channel) ==> Balanced(k.thread)
  {
  }

  lemma AdvanceBalances(max: nat, tid: nat, j: Joint, written: bool)
    requires j.channel.configured && Balanced(j.thread)
    ensures var k := Advance(max, tid, j, written);
            Faithful(k.channel) ==> Balanced(k.thread)
  {
    match j.thread.pc
    case UnlockRecord(_, _) => UnlockBalances(max, tid, j, written);
    case CondTake(_, _, _, _) => CondTakeBalances(max, tid, j, written);
    case LockAcquire(_, _, _) => LockAcquireBalances(max, tid, j, written);
    case CondPush(_, _, _, _) => CondPushBalances(max, tid, j, written);
    case LockEnd(_, _, _, _, _) => LockEndBalances(max, tid, j, written);
    case CondEnd(_, _, _, _, _, _) => CondEndBalances(max, tid, j, written);
    case LockBegin(_, _) => LockBeginBalances(max, tid, j, written);
    case LockLateBegin(_, _, _, _) => LockBeginBalances(max, tid, j, written);
    case CondBegin(_, _, _) => CondBeginBalances(max, tid, j, written);
    case CondLateBegin(_, _, _, _, _) => CondBeginBalances(max, tid, j, written);
    case _ => OtherBalances(max, tid, j, written);
  }

  lemma UnlockCallBalances(t: Thread, released: Token, candidates: seq<Token>, k: nat, now: nat)
    requires t.pc == Idle && Balanced(t) && released in t.owned
    requires k < |candidates| && candidates[k] == released
    requires forall i | 0 <= i < k :: candidates[i] !in t.owned
    ensures Balanced(AfterUnlock(t, released, candidates, true, now))
  {
    assert Owes(Tokens(t.held), t.owned - multiset{released}, candidates, k);
  }

  lemma CallBalances(s: Settings, t: Thread, input: Input)
    requires s.exact && t.pc == Idle && Balanced(t) && Lawful(t, input)
    requires !input.Critical? && !input.Return? && !input.Cancel?
    ensures Balanced(Call(s, t, input))
  {
    match input
    case UnlockMutex(token, ok, now) =>
      if ok {
        UnlockCallBalances(t, token, [token], 0, now);
      }
    case UnlockRwlock(address, writer, ok, now) =>
      if ok {
        var reading, writing := Token(address, RwlockRead), Token(address, RwlockWrite);
        UnlockCallBalances(t, if writer then writing else reading, [reading, writing], if writer then 1 else 0, now);
      }
    case _ =>
  }

  lemma ResumeLockBalances(s: Settings, t: Thread, result: int, now: nat, keeps: bool)
    requires s.exact && t.pc.LockCall? && Balanced(t) && result != EOWNERDEAD
    ensures Balanced(Resume(s, t, result, now, keeps))
  {
    var pc, u := t.pc, Resume(s, t, result, now, keeps);
    assert Tokens(u.held) + Gained(pc.token, result) == u.owned;
    if pc.wait == 0 {
      assert u.pc == LockLateBegin(pc.token, pc.begun, now, result);
    } else {
      assert u.pc == LockEnd(pc.token, pc.begun, now, result, pc.wait);
    }
  }

  lemma ResumeCondBalances(s: Settings, t: Thread, result: int, now: nat)
    requires s.exact && t.pc.CondCall? && Balanced(t) && WaitGoes(result)
    ensures Balanced(Resume(s, t, result, now, true))
  {
  }

  lemma ResumeBalances(s: Settings, t: Thread, result: int, now: nat, keeps: bool)
    requires s.exact && Balanced(t) && Lawful(t, Return(result, now, keeps))
    ensures Balanced(Resume(s, t, result, now, keeps))
  {
    if t.pc.LockCall? {
      ResumeLockBalances(s, t, result, now, keeps);
    } else if t.pc.CondCall? {
      ResumeCondBalances(s, t, result, now);
    } else {
      assert Resume(s, t, result, now, keeps) == t;
    }
  }

  /** Once the probe is inactive or something was lost, it stays so. */
  lemma FaithfulOnlyEnds(s: Settings, tid: nat, j: Joint, input: Input)
    requires j.channel.configured
    ensures var k := ThreadStep(s, tid, j, input);
            k.channel.configured && (Faithful(k.channel) ==> Faithful(j.channel))
  {
    var f := ThreadStepEffect(s, tid, j, input);
    FaithfulTake(s.maxEvents, tid, j.channel, f);
  }

  lemma FaithfulTake(max: nat, tid: nat, c: Channel, f: Effect)
    requires c.configured
    ensures var d := Take(max, tid, c, f);
            d.configured && (Faithful(d) ==> Faithful(c))
  {
  }

  lemma ThreadStepBalances(s: Settings, tid: nat, j: Joint, input: Input)
    requires s.exact && Lawful(j.thread, input)
    requires j.channel.configured && Balanced(j.thread)
    ensures var k := ThreadStep(s, tid, j, input);
            Faithful(k.channel) ==> Balanced(k.thread)
  {
    match input
    case Critical(written) =>
      AdvanceBalances(s.maxEvents, tid, j, written);
    case Return(result, now, keeps) =>
      ResumeBalances(s, j.thread, result, now, keeps);
    case Cancel =>
    case _ =>
      if j.thread.pc == Idle {
        CallBalances(s, j.thread, input);
      }
  }

  // ----- Runs

  ghost predicate LawfulRun(s: Settings, r: Run, steps: seq<Step>)
    decreases |steps|
  {
    steps == [] ||
    (&& (steps[0].Act? ==> Lawful(ThreadOf(r, steps[0].tid), steps[0].input))
     && LawfulRun(s, Apply(s, r, steps[0]), steps[1..]))
  }

  ghost predicate ExactInv(r: Run) {
    && (if r.phase == Unloaded then r.threads == map[] else r.channel.configured)
    && (Faithful(r.channel) ==> forall tid | tid in r.threads :: Balanced(r.threads[tid]))
  }

  lemma ActKeepsExact(s: Settings, r: Run, tid: nat, input: Input)
    requires s.exact && ExactInv(r) && r.phase != Unloaded && Lawful(ThreadOf(r, tid), input)
    ensures ExactInv(Apply(s, r, Act(tid, input)))
  {
    var j := Joint(r.channel, ThreadOf(r, tid));
    var k := ThreadStep(s, tid, j, input);
    FaithfulOnlyEnds(s, tid, j, input);
    if Faithful(k.channel) {
      assert Balanced(j.thread);
      ThreadStepBalances(s, tid, j, input);
    }
  }

  lemma ApplyKeepsExact(s: Settings, r: Run, step: Step)
    requires s.exact && ExactInv(r)
    requires step.Act? ==> Lawful(ThreadOf(r, step.tid), step.input)
    ensures ExactInv(Apply(s, r, step))
  {
    match step
    case Act(tid, input) =>
      if r.phase != Unloaded {
        ActKeepsExact(s, r, tid, input);
      }
    case _ =>
  }

  lemma {:induction false} ExecuteKeepsExact(s: Settings, r: Run, steps: seq<Step>)
    requires s.exact && ExactInv(r) && LawfulRun(s, r, steps)
    ensures ExactInv(Execute(s, r, steps))
    decreases |steps|
  {
    if steps != [] {
      ApplyKeepsExact(s, r, steps[0]);
      ExecuteKeepsExact(s, Apply(s, r, steps[0]), steps[1..]);
    }
  }

  /** Between two wrappers, while the probe is active and nothing was lost, the table holds
      exactly the multiset of locks the thread owns. */
  lemma TableIsExact(s: Settings, steps: seq<Step>, tid: nat)
    requires s.exact && LawfulRun(s, INITIAL, steps)
    ensures var r := Execute(s, INITIAL, steps);
            Faithful(r.channel) && ThreadOf(r, tid).pc == Idle ==>
              Tokens(ThreadOf(r, tid).held) == ThreadOf(r, tid).owned
  {
    ExecuteKeepsExact(s, INITIAL, steps);
  }

  // ----- The results outside the assumption

  const LAST_TWO: seq<Input> := [Critical(true), Critical(true)]

  function LockSteps(token: Token, now: nat, end: nat, result: int): seq<Input> {
    [CallLock(token, now)] + ([Critical(true)] + ([Return(result, end, true)] + LAST_TWO))
  }

  function WaitSteps(cond: Token, mutex: Token, now: nat, end: nat, result: int): seq<Input> {
    [CallWait(cond, mutex, now)] + ([Critical(true)] + ([Critical(true)] + ([Return(result, end, true)] + LAST_TWO)))
  }

  lemma AloneCons(s: Settings, tid: nat, j: Joint, first: Input, rest: seq<Input>)
    ensures Alone(s, tid, j, [first] + rest) == Alone(s, tid, ThreadStep(s, tid, j, first), rest)
  {
    assert ([first] + rest)[1..] == rest;
  }

  /** Room for `n` more events. */
  ghost predicate Room(s: Settings, c: Channel, n: nat) {
    Faithful(c) && c.emitted + n <= s.maxEvents
  }

  lemma EmitWithRoom(s: Settings, c: Channel, tid: nat, d: Draft, n: nat)
    requires Room(s, c, n + 1)
    ensures var e := EmitEvent(s.maxEvents, c, tid, d, true);
            Room(s, e.channel, n) && e.sequence == c.sequence + 1
  {
  }

  lemma LockUntilReturn(s: Settings, tid: nat, j: Joint, token: Token, now: nat, end: nat, result: int) returns (k: Joint)
    requires s.exact && j.thread.pc == Idle && Room(s, j.channel, 3)
    ensures Alone(s, tid, j, LockSteps(token, now, end, result)) == Alone(s, tid, k, LAST_TWO)
    ensures Room(s, k.channel, 2) && k.thread.held == j.thread.held
    ensures k.thread.pc == LockEnd(token, now, end, result, j.channel.sequence + 1)
    ensures k.thread.owned == if result == 0 || result == EOWNERDEAD then j.thread.owned + multiset{token} else j.thread.owned
  {
    var call, back := CallLock(token, now), Return(result, end, true);
    var k1 := ThreadStep(s, tid, j, call);
    EmitWithRoom(s, k1.channel, tid, BeginDraft(token, now), 2);
    var k2 := ThreadStep(s, tid, k1, Critical(true));
    k := ThreadStep(s, tid, k2, back);
    AloneCons(s, tid, j, call, [Critical(true)] + ([back] + LAST_TWO));
    AloneCons(s, tid, k1, Critical(true), [back] + LAST_TWO);
    AloneCons(s, tid, k2, back, LAST_TWO);
  }

  lemma LockAfterReturn(s: Settings, tid: nat, j: Joint) returns (k: Joint)
    requires j.thread.pc.LockEnd? && Room(s, j.channel, 2) && |j.thread.held| < HELD_SLOTS
    ensures Alone(s, tid, j, LAST_TWO) == k
    ensures Faithful(k.channel) && k.thread.pc == Idle && k.thread.owned == j.thread.owned
    ensures k.thread.held == if j.thread.pc.result == 0
                             then j.thread.held + [Held(j.thread.pc.token, j.channel.sequence + 2, j.thread.pc.ended)]
                             else j.thread.held
  {
    var pc := j.thread.pc;
    EmitWithRoom(s, j.channel, tid, EndDraft(pc.token, pc.begun, pc.ended, pc.wait, LockVerdict(pc.result)), 1);
    var k1 := ThreadStep(s, tid, j, Critical(true));
    if pc.result == 0 {
      EmitWithRoom(s, k1.channel, tid, AcquireDraft(pc.token, pc.ended, k1.thread.pc.waitEnd), 0);
    }
    k := ThreadStep(s, tid, k1, Critical(true));
    AloneCons(s, tid, j, Critical(true), [Critical(true)]);
    AloneCons(s, tid, k1, Critical(true), []);
    assert LAST_TWO == [Critical(true)] + [Critical(true)] && [Critical(true)] + [] == [Critical(true)];
  }

  /** A whole lock call, alone and with nothing lost, keeps the table exact if and only if the
      result is not EOWNERDEAD: that result hands over the lock, but the probe reads it as a
      failure. */
  lemma LockCallIsExactUnlessOwnerDied(s: Settings, tid: nat, j: Joint, token: Token, now: nat, end: nat, result: int)
    requires s.exact && j.thread.pc == Idle && Room(s, j.channel, 3) && |j.thread.held| < HELD_SLOTS
    requires Tokens(j.thread.held) == j.thread.owned
    ensures var k := Alone(s, tid, j, LockSteps(token, now, end, result));
            && Faithful(k.channel) && k.thread.pc == Idle
            && (Tokens(k.thread.held) == k.thread.owned <==> result != EOWNERDEAD)
  {
    var k1 := LockUntilReturn(s, tid, j, token, now, end, result);
    var k2 := LockAfterReturn(s, tid, k1);
    PushTokens(j.thread.held, Held(token, k1.channel.sequence + 2, end));
    MissingToken(j.thread.owned, token);
  }

  lemma MissingToken(owned: multiset<Token>, token: Token)
    ensures owned + multiset{token} != owned
  {
    assert (owned + multiset{token})[token] == owned[token] + 1;
  }

  lemma WaitBegins(s: Settings, tid: nat, j: Joint, cond: Token, mutex: Token, now: nat) returns (k: Joint)
    requires s.exact && j.thread.pc == Idle && Room(s, j.channel, 4)
    ensures k == ThreadStep(s, tid, ThreadStep(s, tid, j, CallWait(cond, mutex, now)), Critical(true))
    ensures Room(s, k.channel, 3) && k.channel.sequence == j.channel.sequence + 1
    ensures k.thread == j.thread.(pc := CondTake(cond, mutex, now, j.channel.sequence + 1))
  {
    var k1 := ThreadStep(s, tid, j, CallWait(cond, mutex, now));
    EmitWithRoom(s, k1.channel, tid, BeginDraft(cond, now), 3);
    k := ThreadStep(s, tid, k1, Critical(true));
  }

  lemma WaitReleases(s: Settings, tid: nat, j: Joint, result: int, end: nat) returns (k: Joint)
    requires s.exact && j.thread.pc.CondTake? && j.thread.pc.wait != 0 && Room(s, j.channel, 3)
    requires j.thread.pc.mutex in Tokens(j.thread.held) && AllRecorded(j.thread.held)
    ensures k == ThreadStep(s, tid, ThreadStep(s, tid, j, Critical(true)), Return(result, end, true))
    ensures Room(s, k.channel, 2) && k.thread.owned == j.thread.owned
    ensures k.thread.pc == CondEnd(j.thread.pc.cond, j.thread.pc.mutex, j.thread.pc.begun, end, result, j.thread.pc.wait)
    ensures Tokens(k.thread.held) + multiset{j.thread.pc.mutex} == Tokens(j.thread.held)
    ensures |k.thread.held| < |j.thread.held|
  {
    var pc := j.thread.pc;
    TakeNewestTokens(j.thread.held, pc.mutex);
    var t := TakeNewest(j.thread.held, pc.mutex).value;
    EmitWithRoom(s, j.channel, tid, ReleaseDraft(t.entry, pc.begun), 2);
    var k1 := ThreadStep(s, tid, j, Critical(true));
    assert k1 == At(EmitRelease(s.maxEvents, tid, j, t, pc.begun, true), CondCall(pc.cond, pc.mutex, pc.begun, pc.wait));
    k := ThreadStep(s, tid, k1, Return(result, end, true));
  }

  lemma WaitUntilReturn(s: Settings, tid: nat, j: Joint, cond: Token, mutex: Token, now: nat, end: nat, result: int)
    returns (k: Joint)
    requires s.exact && j.thread.pc == Idle && Room(s, j.channel, 4)
    requires mutex in Tokens(j.thread.held) && AllRecorded(j.thread.held)
    ensures Alone(s, tid, j, WaitSteps(cond, mutex, now, end, result)) == Alone(s, tid, k, LAST_TWO)
    ensures Room(s, k.channel, 2) && k.thread.owned == j.thread.owned
    ensures k.thread.pc == CondEnd(cond, mutex, now, end, result, j.channel.sequence + 1)
    ensures Tokens(k.thread.held) + multiset{mutex} == Tokens(j.thread.held) && |k.thread.held| < |j.thread.held|
  {
    var call, back := CallWait(cond, mutex, now), Return(result, end, true);
    var k1 := WaitBegins(s, tid, j, cond, mutex, now);
    k := WaitReleases(s, tid, k1, result, end);
    AloneCons(s, tid, j, call, [Critical(true)] + ([Critical(true)] + ([back] + LAST_TWO)));
    AloneCons(s, tid, ThreadStep(s, tid, j, call), Critical(true), [Critical(true)] + ([back] + LAST_TWO));
    AloneCons(s, tid, k1, Critical(true), [back] + LAST_TWO);
    AloneCons(s, tid, ThreadStep(s, tid, k1, Critical(true)), back, LAST_TWO);
  }

  lemma WaitAfterReturn(s: Settings, tid: nat, j: Joint) returns (k: Joint)
    requires j.thread.pc.CondEnd? && Room(s, j.channel, 2) && |j.thread.held| < HELD_SLOTS
    ensures Alone(s, tid, j, LAST_TWO) == k
    ensures Faithful(k.channel) && k.thread.pc == Idle && k.thread.owned == j.thread.owned
    ensures k.thread.held == if WaitGoes(j.thread.pc.result)
                             then j.thread.held + [Held(j.thread.pc.mutex, j.channel.sequence + 2, j.thread.pc.ended)]
                             else j.thread.held
  {
    var pc := j.thread.pc;
    EmitWithRoom(s, j.channel, tid, EndDraft(pc.cond, pc.begun, pc.ended, pc.wait, CondVerdict(pc.result)), 1);
    var k1 := ThreadStep(s, tid, j, Critical(true));
    EmitWithRoom(s, k1.channel, tid, AcquireDraft(pc.mutex, pc.ended, 0), 0);
    k := ThreadStep(s, tid, k1, Critical(true));
    AloneCons(s, tid, j, Critical(true), [Critical(true)]);
    AloneCons(s, tid, k1, Critical(true), []);
    assert LAST_TWO == [Critical(true)] + [Critical(true)] && [Critical(true)] + [] == [Critical(true)];
  }

  /** A whole condition wait that ends with the mutex owned keeps the table exact if and only if
      it returns 0 or ETIMEDOUT: after any other result the entry taken at the start is not put
      back. */
  lemma WaitIsExactUnlessItFails(s: Settings, tid: nat, j: Joint, cond: Token, mutex: Token, now: nat, end: nat, result: int)
    requires s.exact && j.thread.pc == Idle && Room(s, j.channel, 4) && |j.thread.held| <= HELD_SLOTS
    requires Tokens(j.thread.held) == j.thread.owned && mutex in j.thread.owned && AllRecorded(j.thread.held)
    ensures var k := Alone(s, tid, j, WaitSteps(cond, mutex, now, end, result));
            && Faithful(k.channel) && k.thread.pc == Idle
            && (Tokens(k.thread.held) == k.thread.owned <==> result == 0 || result == ETIMEDOUT)
  {
    var k1 := WaitUntilReturn(s, tid, j, cond, mutex, now, end, result);
    var k2 := WaitAfterReturn(s, tid, k1);
    PushTokens(k1.thread.held, Held(mutex, k1.channel.sequence + 2, end));
    MissingToken(Tokens(k1.thread.held), mutex);
  }
}
