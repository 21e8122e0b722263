/**
 The probe's wrappers as threads see them: each wrapper is a short program whose steps are
 calls, returns from the real function, and passes through one critical section of the
 channel. Between two steps of one thread any other thread may run.
 */
module ProbeThreads {
  import opened Options
  import opened ProbeStream
  import opened HeldLocks

  const ETIMEDOUT: int := 110
  const EOWNERDEAD: int := 130

  datatype Pc =
    | Idle
      // the lock wrappers and record_lock_result
    | LockBegin(token: Token, begun: nat)
    | LockCall(token: Token, begun: nat, wait: nat)
    | LockLateBegin(token: Token, begun: nat, ended: nat, result: int)
    | LockEnd(token: Token, begun: nat, ended: nat, result: int, wait: nat)
    | LockAcquire(token: Token, ended: nat, waitEnd: nat)
    | LockNoSlot
      // the unlock wrappers and record_release
    | UnlockRecord(candidates: seq<Token>, at: nat)
      // record_condition_wait
    | CondBegin(cond: Token, mutex: Token, begun: nat)
    | CondTake(cond: Token, mutex: Token, begun: nat, wait: nat)
    | CondCall(cond: Token, mutex: Token, begun: nat, wait: nat)
    | CondLateBegin(cond: Token, mutex: Token, begun: nat, ended: nat, result: int)
    | CondEnd(cond: Token, mutex: Token, begun: nat, ended: nat, result: int, wait: nat)
    | CondPush(mutex: Token, ended: nat, result: int, waitEnd: nat)

  /** `owned` is the truth the table approximates: the locks the thread really holds. */
  datatype Thread = Thread(pc: Pc, held: seq<Held>, owned: multiset<Token>)

  const FRESH := Thread(Idle, [], multiset{})

  datatype Input =
    | CallLock(token: Token, now: nat)
    | UnlockMutex(token: Token, ok: bool, now: nat)
    | UnlockRwlock(address: nat, writer: bool, ok: bool, now: nat)
    | CallWait(cond: Token, mutex: Token, now: nat)
    | Return(result: int, now: nat, keeps: bool)
    | Cancel
    | Critical(written: bool)

  function Elapsed(begun: nat, ended: nat): nat {
    if ended >= begun then ended - begun else 0
  }

  function LockVerdict(result: int): Verdict {
    if result == 0 then Acquired else if result == ETIMEDOUT then TimedOut else Failed
  }

  function CondVerdict(result: int): Verdict {
    if result == 0 then Notified else LockVerdict(result)
  }

  function BeginDraft(token: Token, begun: nat): Draft {
    Draft(WaitBegin, begun, token, 0, None, None, Unknown)
  }

  function EndDraft(token: Token, begun: nat, ended: nat, wait: nat, verdict: Verdict): Draft {
    Draft(WaitEnd, ended, token, wait, Some(Elapsed(begun, ended)), None, verdict)
  }

  function AcquireDraft(token: Token, ended: nat, waitEnd: nat): Draft {
    Draft(Acquire, ended, token, waitEnd, None, None, Acquired)
  }

  function ReleaseDraft(entry: Held, at: nat): Draft {
    Draft(Release, at, entry.token, entry.acquired, None, Some(Elapsed(entry.at, at)), Released)
  }

  datatype Joint = Joint(channel: Channel, thread: Thread)

  /** `held_push`, together with the loss it records when the table is full. */
  function PushHeld(j: Joint, entry: Held): Joint {
    if |j.thread.held| < HELD_SLOTS
    then j.(thread := j.thread.(held := j.thread.held + [entry]))
    else j.(channel := MarkLost(j.channel, 1))
  }

  function EmitRelease(max: nat, tid: nat, j: Joint, taken: Taken, at: nat, written: bool): Joint {
    Joint(EmitEvent(max, j.channel, tid, ReleaseDraft(taken.entry, at), written).channel,
          j.thread.(held := taken.rest))
  }

  /** `record_release` for each candidate until one call returns true. An entry whose acquire
      record was never written is dropped and counts as a miss. */
  function RecordRelease(max: nat, tid: nat, j: Joint, candidates: seq<Token>, at: nat, written: bool): Joint
    decreases |candidates|
  {
    if candidates == [] then
      j
    else
      match TakeNewest(j.thread.held, candidates[0])
      case None => RecordRelease(max, tid, j, candidates[1..], at, written)
      case Some(t) =>
        if t.entry.acquired == 0
        then RecordRelease(max, tid, j.(thread := j.thread.(held := t.rest)), candidates[1..], at, written)
        else EmitRelease(max, tid, j, t, at, written)
  }

  /** The release record that a condition wait writes for its mutex before it blocks. */
  function TakeForWait(max: nat, tid: nat, j: Joint, mutex: Token, at: nat, written: bool): Joint {
    match TakeNewest(j.thread.held, mutex)
    case None => j
    case Some(t) =>
      if t.entry.acquired == 0 then j.(thread := j.thread.(held := t.rest))
      else EmitRelease(max, tid, j, t, at, written)
  }

  /** The end of a condition wait: the mutex goes back into the table whatever was written. */
  function FinishWait(max: nat, tid: nat, j: Joint, mutex: Token, ended: nat, result: int, waitEnd: nat,
                      written: bool): Joint
  {
    if result != 0 && result != ETIMEDOUT then
      j
    else if waitEnd != 0 && |j.thread.held| < HELD_SLOTS then
      var e := EmitEvent(max, j.channel, tid, AcquireDraft(mutex, ended, 0), written);
      PushHeld(Joint(e.channel, j.thread), Held(mutex, e.sequence, ended))
    else
      PushHeld(j, Held(mutex, 0, ended))
  }

  function At(j: Joint, pc: Pc): Joint {
    j.(thread := j.thread.(pc := pc))
  }

  /** One pass through the critical section that the thread's program has reached. */
  function Advance(max: nat, tid: nat, j: Joint, written: bool): Joint {
    match j.thread.pc
    case LockBegin(token, begun) =>
      var e := EmitEvent(max, j.channel, tid, BeginDraft(token, begun), written);
      At(Joint(e.channel, j.thread), LockCall(token, begun, e.sequence))
    case LockLateBegin(token, begun, ended, result) =>
      var e := EmitEvent(max, j.channel, tid, BeginDraft(token, begun), written);
      At(Joint(e.channel, j.thread),
         if e.sequence == 0 then Idle else LockEnd(token, begun, ended, result, e.sequence))
    case LockEnd(token, begun, ended, result, wait) =>
      var e := EmitEvent(max, j.channel, tid, EndDraft(token, begun, ended, wait, LockVerdict(result)), written);
      At(Joint(e.channel, j.thread),
         if result != 0 || e.sequence == 0 then Idle
         else if |j.thread.held| < HELD_SLOTS then LockAcquire(token, ended, e.sequence)
         else LockNoSlot)
    case LockNoSlot =>
      At(Joint(MarkLost(j.channel, 2), j.thread), Idle)
    case LockAcquire(token, ended, waitEnd) =>
      var e := EmitEvent(max, j.channel, tid, AcquireDraft(token, ended, waitEnd), written);
      At(if e.sequence == 0 then Joint(e.channel, j.thread)
         else PushHeld(Joint(e.channel, j.thread), Held(token, e.sequence, ended)), Idle)
    case UnlockRecord(candidates, at) =>
      At(RecordRelease(max, tid, j, candidates, at, written), Idle)
    case CondBegin(cond, mutex, begun) =>
      var e := EmitEvent(max, j.channel, tid, BeginDraft(cond, begun), written);
      At(Joint(e.channel, j.thread), CondTake(cond, mutex, begun, e.sequence))
    case CondTake(cond, mutex, begun, wait) =>
      At(TakeForWait(max, tid, j, mutex, begun, written), CondCall(cond, mutex, begun, wait))
    case CondLateBegin(cond, mutex, begun, ended, result) =>
      var e := EmitEvent(max, j.channel, tid, BeginDraft(cond, begun), written);
      At(Joint(e.channel, j.thread),
         if e.sequence == 0 then CondPush(mutex, ended, result, 0)
         else CondEnd(cond, mutex, begun, ended, result, e.sequence))
    case CondEnd(cond, mutex, begun, ended, result, wait) =>
      var e := EmitEvent(max, j.channel, tid, EndDraft(cond, begun, ended, wait, CondVerdict(result)), written);
      At(Joint(e.channel, j.thread), CondPush(mutex, ended, result, e.sequence))
    case CondPush(mutex, ended, result, waitEnd) =>
      At(FinishWait(max, tid, j, mutex, ended, result, waitEnd, written), Idle)
    case _ => j
  }

  /** The call that opens a wrapper. `enter_probe` lets it pass only while the probe is active;
      a call that passes straight to the real function is not a step. */
  function Call(s: Settings, t: Thread, input: Input): Thread {
    match input
    case CallLock(token, now) =>
      t.(pc := if s.exact then LockBegin(token, now) else LockCall(token, now, 0))
    case UnlockMutex(token, ok, now) =>
      AfterUnlock(t, token, [token], ok, now)
    case UnlockRwlock(address, writer, ok, now) =>
      var reading, writing := Token(address, RwlockRead), Token(address, RwlockWrite);
      AfterUnlock(t, if writer then writing else reading, [reading, writing], ok, now)
    case CallWait(cond, mutex, now) =>
      t.(pc := if s.exact then CondBegin(cond, mutex, now) else CondTake(cond, mutex, now, 0))
    case _ => t
  }

  function AfterUnlock(t: Thread, released: Token, candidates: seq<Token>, ok: bool, now: nat): Thread {
    if !ok then t
    else t.(owned := t.owned - multiset{released},
            pc := if t.held == [] then Idle else UnlockRecord(candidates, now))
  }

  /** The real function returns. A lock is held after 0 and after EOWNERDEAD; `keeps` says
      whether the mutex is held after a condition wait. */
  function Resume(s: Settings, t: Thread, result: int, now: nat, keeps: bool): Thread {
    match t.pc
    case LockCall(token, begun, wait) =>
      var owned := if result == 0 || result == EOWNERDEAD then t.owned + multiset{token} else t.owned;
      var observed := s.exact || Elapsed(begun, now) >= s.threshold;
      t.(owned := owned,
         pc := if !observed then Idle
               else if wait == 0 then LockLateBegin(token, begun, now, result)
               else LockEnd(token, begun, now, result, wait))
    case CondCall(cond, mutex, begun, wait) =>
      var observed := s.exact || Elapsed(begun, now) >= s.threshold;
      t.(owned := if keeps then t.owned else t.owned - multiset{mutex},
         pc := if !observed then CondPush(mutex, now, result, 0)
               else if wait == 0 then CondLateBegin(cond, mutex, begun, now, result)
               else CondEnd(cond, mutex, begun, now, result, wait))
    case _ => t
  }

  /** One step of thread `tid`; an input that does not fit the thread's position does nothing. */
  function ThreadStep(s: Settings, tid: nat, j: Joint, input: Input): Joint {
    match input
    case Critical(written) => Advance(s.maxEvents, tid, j, written)
    case Return(result, now, keeps) => j.(thread := Resume(s, j.thread, result, now, keeps))
    case Cancel =>
      if j.thread.pc.CondCall?
      then Joint(MarkLost(j.channel, |j.thread.held| + 1), j.thread.(pc := Idle, held := []))
      else j
    case _ =>
      if j.thread.pc == Idle && j.channel.active then j.(thread := Call(s, j.thread, input)) else j
  }

  /** Steps of one thread with nobody else in between. */
  function Alone(s: Settings, tid: nat, j: Joint, inputs: seq<Input>): Joint
    decreases |inputs|
  {
    if inputs == [] then j else Alone(s, tid, ThreadStep(s, tid, j, inputs[0]), inputs[1..])
  }
}
