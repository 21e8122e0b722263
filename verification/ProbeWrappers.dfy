/**
 The recording half of the wrappers as the C code runs it, on one probe object and one table.
 Each method is the thread program of `ProbeThreads` with no other thread in between.
 */
module ProbeWrappers {
  import opened Options
  import opened ProbeStream
  import opened HeldLocks
  import opened ProbeThreads

  ghost function Seen(probe: Probe, table: HeldTable, pc: Pc, owned: multiset<Token>): Joint
    reads probe, table, table.slots
    requires table.Valid()
  {
    Joint(probe.View(), Thread(pc, table.Contents(), owned))
  }

  method HeldPush(probe: Probe, table: HeldTable, entry: Held, ghost pc: Pc, ghost owned: multiset<Token>)
    requires table.Valid()
    modifies probe, table`count, table.slots
    ensures table.Valid() && table.slots == old(table.slots)
    ensures Seen(probe, table, pc, owned) == PushHeld(old(Seen(probe, table, pc, owned)), entry)
  {
    var kept := table.Push(entry);
    if !kept {
      probe.Mark(1);
    }
  }

  /** `begin_exact_wait` and the late begin record: the thread moves to `next` with its number. */
  method EmitBegin(probe: Probe, table: HeldTable, tid: nat, token: Token, begun: nat, written: bool,
                   ghost owned: multiset<Token>, ghost ended: nat, ghost result: int)
    returns (begin: nat)
    requires table.Valid()
    modifies probe
    ensures table.Valid()
    ensures
      var late := old(Seen(probe, table, LockLateBegin(token, begun, ended, result), owned));
      Advance(probe.settings.maxEvents, tid, late, written) ==
      Seen(probe, table, if begin == 0 then Idle else LockEnd(token, begun, ended, result, begin), owned)
  {
    begin := probe.Emit(tid, BeginDraft(token, begun), written);
  }

  method EmitEnd(probe: Probe, table: HeldTable, tid: nat, token: Token, begun: nat, ended: nat, result: int, begin: nat,
                 written: bool, ghost owned: multiset<Token>)
    returns (end: nat)
    requires table.Valid()
    modifies probe
    ensures table.Valid()
    ensures
      var before := old(Seen(probe, table, LockEnd(token, begun, ended, result, begin), owned));
      Advance(probe.settings.maxEvents, tid, before, written) ==
      Seen(probe, table, if result != 0 || end == 0 then Idle
                         else if table.count < HELD_SLOTS then LockAcquire(token, ended, end) else LockNoSlot, owned)
  {
    end := probe.Emit(tid, EndDraft(token, begun, ended, begin, LockVerdict(result)), written);
  }

  method EmitAcquire(probe: Probe, table: HeldTable, tid: nat, token: Token, ended: nat, end: nat, written: bool,
                     ghost owned: multiset<Token>)
    requires table.Valid()
    modifies probe, table`count, table.slots
    ensures table.Valid() && table.slots == old(table.slots)
    ensures
      var before := old(Seen(probe, table, LockAcquire(token, ended, end), owned));
      Advance(probe.settings.maxEvents, tid, before, written) == Seen(probe, table, Idle, owned)
  {
    var acquire := probe.Emit(tid, AcquireDraft(token, ended, end), written);
    if acquire != 0 {
      HeldPush(probe, table, Held(token, acquire, ended), Idle, owned);
    }
  }

  /** The second half of `record_lock_result`, once there is a begin record to link to. */
  method FinishLock(probe: Probe, table: HeldTable, tid: nat, token: Token, begun: nat, ended: nat, result: int,
                    begin: nat, wroteEnd: bool, wroteAcquire: bool, ghost owned: multiset<Token>)
    requires table.Valid()
    modifies probe, table`count, table.slots
    ensures table.Valid() && table.slots == old(table.slots)
    ensures
      var before := old(Seen(probe, table, LockEnd(token, begun, ended, result, begin), owned));
      Seen(probe, table, Idle, owned) == LockTail(probe.settings.maxEvents, tid, before, wroteEnd, wroteAcquire)
  {
    var end := EmitEnd(probe, table, tid, token, begun, ended, result, begin, wroteEnd, owned);
    if result != 0 || end == 0 {
      return;
    }
    if table.count >= HELD_SLOTS {
      probe.Mark(2);
      return;
    }
    EmitAcquire(probe, table, tid, token, ended, end, wroteAcquire, owned);
  }

  /** From the wait_end record to the end of the wrapper. */
  function LockTail(max: nat, tid: nat, j: Joint, wroteEnd: bool, wroteAcquire: bool): Joint {
    Advance(max, tid, Advance(max, tid, j, wroteEnd), wroteAcquire)
  }

  /** `record_lock_result`: the rest of a lock wrapper once the real function has returned. */
  method RecordLockResult(probe: Probe, table: HeldTable, tid: nat, token: Token, begun: nat, ended: nat, result: int,
                          exactBegin: nat, wroteBegin: bool, wroteEnd: bool, wroteAcquire: bool,
                          ghost owned: multiset<Token>)
    requires table.Valid()
    modifies probe, table`count, table.slots
    ensures table.Valid() && table.slots == old(table.slots)
    ensures
      var t := Resume(probe.settings, Thread(LockCall(token, begun, exactBegin), old(table.Contents()), owned),
                      result, ended, true);
      var j := Joint(old(probe.View()), t);
      Seen(probe, table, Idle, t.owned) ==
      if t.pc.Idle? then j
      else LockTail(probe.settings.maxEvents, tid,
                    if t.pc.LockLateBegin? then Advance(probe.settings.maxEvents, tid, j, wroteBegin) else j,
                    wroteEnd, wroteAcquire)
  {
    ghost var now := if result == 0 || result == EOWNERDEAD then owned + multiset{token} else owned;
    if !probe.settings.exact && Elapsed(begun, ended) < probe.settings.threshold {
      return;
    }
    var begin := exactBegin;
    if begin == 0 {
      begin := EmitBegin(probe, table, tid, token, begun, wroteBegin, now, ended, result);
    }
    if begin != 0 {
      FinishLock(probe, table, tid, token, begun, ended, result, begin, wroteEnd, wroteAcquire, now);
    }
  }

  /** A release of `token` finds an entry whose acquire record was written. */
  predicate Releases(held: seq<Held>, token: Token) {
    var taken := TakeNewest(held, token);
    taken.Some? && taken.value.entry.acquired != 0
  }

  /** The next candidate is tried only where the first one released nothing. */
  lemma CandidatesInTurn(max: nat, tid: nat, j: Joint, token: Token, more: seq<Token>, at: nat, written: bool)
    ensures var first := RecordRelease(max, tid, j, [token], at, written);
            RecordRelease(max, tid, j, [token] + more, at, written)
            == if Releases(j.thread.held, token) then first else RecordRelease(max, tid, first, more, at, written)
  {
    assert ([token] + more)[1..] == more && [token][1..] == [];
  }

  /** `record_release` for one token. */
  method RecordOneRelease(probe: Probe, table: HeldTable, tid: nat, token: Token, at: nat, written: bool,
                          ghost pc: Pc, ghost owned: multiset<Token>)
    returns (done: bool)
    requires table.Valid()
    modifies probe, table`count, table.slots
    ensures table.Valid() && table.slots == old(table.slots)
    ensures done <==> Releases(old(table.Contents()), token)
    ensures Seen(probe, table, pc, owned) ==
            RecordRelease(probe.settings.maxEvents, tid, old(Seen(probe, table, pc, owned)), [token], at, written)
  {
    assert [token][1..] == [];
    var taken := table.Take(token);
    if taken.None? || taken.value.acquired == 0 {
      return false;
    }
    var number := probe.Emit(tid, ReleaseDraft(taken.value, at), written);
    return true;
  }

  /** The end of the rwlock unlock wrapper: the read token first, then the write token. */
  method RecordRwlockRelease(probe: Probe, table: HeldTable, tid: nat, address: nat, at: nat, written: bool,
                             ghost owned: multiset<Token>)
    requires table.Valid()
    modifies probe, table`count, table.slots
    ensures table.Valid() && table.slots == old(table.slots)
    ensures
      var pc := UnlockRecord([Token(address, RwlockRead), Token(address, RwlockWrite)], at);
      Seen(probe, table, Idle, owned) ==
      Advance(probe.settings.maxEvents, tid, old(Seen(probe, table, pc, owned)), written)
  {
    var reading, writing := Token(address, RwlockRead), Token(address, RwlockWrite);
    ghost var pc := UnlockRecord([reading, writing], at);
    CandidatesInTurn(probe.settings.maxEvents, tid, Seen(probe, table, pc, owned), reading, [writing], at, written);
    assert [reading] + [writing] == [reading, writing];
    var done := RecordOneRelease(probe, table, tid, reading, at, written, pc, owned);
    if !done {
      done := RecordOneRelease(probe, table, tid, writing, at, written, pc, owned);
    }
    assert Seen(probe, table, Idle, owned) == At(Seen(probe, table, pc, owned), Idle);
  }

  /** The release record of a condition wait: the mutex leaves the table. */
  method ReleaseForWait(probe: Probe, table: HeldTable, tid: nat, cond: Token, mutex: Token, begun: nat, begin: nat,
                        written: bool, ghost owned: multiset<Token>)
    requires table.Valid()
    modifies probe, table`count, table.slots
    ensures table.Valid() && table.slots == old(table.slots)
    ensures
      Seen(probe, table, CondCall(cond, mutex, begun, begin), owned) ==
      Advance(probe.settings.maxEvents, tid, old(Seen(probe, table, CondTake(cond, mutex, begun, begin), owned)), written)
  {
    var taken := table.Take(mutex);
    if taken.Some? && taken.value.acquired != 0 {
      var number := probe.Emit(tid, ReleaseDraft(taken.value, begun), written);
    }
  }

  /** `record_condition_wait` up to the real wait. */
  method BeforeWait(probe: Probe, table: HeldTable, tid: nat, cond: Token, mutex: Token, now: nat,
                    wroteBegin: bool, wroteRelease: bool, ghost owned: multiset<Token>)
    returns (begin: nat)
    requires table.Valid()
    modifies probe, table`count, table.slots
    ensures table.Valid() && table.slots == old(table.slots)
    ensures
      var t := Call(probe.settings, Thread(Idle, old(table.Contents()), owned), CallWait(cond, mutex, now));
      var j := Joint(old(probe.View()), t);
      var k := if t.pc.CondBegin? then Advance(probe.settings.maxEvents, tid, j, wroteBegin) else j;
      Seen(probe, table, CondCall(cond, mutex, now, begin), owned) ==
      Advance(probe.settings.maxEvents, tid, k, wroteRelease)
  {
    begin := 0;
    if probe.settings.exact {
      begin := probe.Emit(tid, BeginDraft(cond, now), wroteBegin);
    }
    ReleaseForWait(probe, table, tid, cond, mutex, now, begin, wroteRelease, owned);
  }

  /** The last part of `record_condition_wait`: the mutex goes back into the table. */
  method RestoreAfterWait(probe: Probe, table: HeldTable, tid: nat, mutex: Token, ended: nat, result: int, end: nat,
                          written: bool, ghost owned: multiset<Token>)
    requires table.Valid()
    modifies probe, table`count, table.slots
    ensures table.Valid() && table.slots == old(table.slots)
    ensures
      Seen(probe, table, Idle, owned) ==
      Advance(probe.settings.maxEvents, tid, old(Seen(probe, table, CondPush(mutex, ended, result, end), owned)), written)
  {
    if result == 0 || result == ETIMEDOUT {
      var acquire := 0;
      if end != 0 && table.count < HELD_SLOTS {
        acquire := probe.Emit(tid, AcquireDraft(mutex, ended, 0), written);
      }
      HeldPush(probe, table, Held(mutex, acquire, ended), CondPush(mutex, ended, result, end), owned);
    }
  }

  /** From the return of a condition wait to its last part. */
  function WaitTail(max: nat, tid: nat, j: Joint, wroteBegin: bool, wroteEnd: bool): Joint {
    var k := if j.thread.pc.CondLateBegin? then Advance(max, tid, j, wroteBegin) else j;
    if k.thread.pc.CondEnd? then Advance(max, tid, k, wroteEnd) else k
  }

  method EmitWaitBegin(probe: Probe, table: HeldTable, tid: nat, cond: Token, mutex: Token, begun: nat, ended: nat,
                       result: int, written: bool, ghost owned: multiset<Token>)
    returns (begin: nat)
    requires table.Valid()
    modifies probe
    ensures table.Valid()
    ensures
      var late := old(Seen(probe, table, CondLateBegin(cond, mutex, begun, ended, result), owned));
      Advance(probe.settings.maxEvents, tid, late, written) ==
      Seen(probe, table, if begin == 0 then CondPush(mutex, ended, result, 0)
                         else CondEnd(cond, mutex, begun, ended, result, begin), owned)
  {
    begin := probe.Emit(tid, BeginDraft(cond, begun), written);
  }

  method EmitWaitEnd(probe: Probe, table: HeldTable, tid: nat, cond: Token, mutex: Token, begun: nat, ended: nat,
                     result: int, begin: nat, written: bool, ghost owned: multiset<Token>)
    returns (end: nat)
    requires table.Valid()
    modifies probe
    ensures table.Valid()
    ensures
      var before := old(Seen(probe, table, CondEnd(cond, mutex, begun, ended, result, begin), owned));
      Advance(probe.settings.maxEvents, tid, before, written) == Seen(probe, table, CondPush(mutex, ended, result, end), owned)
  {
    end := probe.Emit(tid, EndDraft(cond, begun, ended, begin, CondVerdict(result)), written);
  }

  /** The records of the wait itself; `end` stays 0 when there is nothing to record. */
  method RecordWait(probe: Probe, table: HeldTable, tid: nat, cond: Token, mutex: Token, begun: nat, ended: nat,
                    result: int, exactBegin: nat, wroteBegin: bool, wroteEnd: bool, ghost keeps: bool,
                    ghost owned: multiset<Token>)
    returns (end: nat)
    requires table.Valid()
    modifies probe
    ensures table.Valid()
    ensures
      var t := Resume(probe.settings, Thread(CondCall(cond, mutex, begun, exactBegin), old(table.Contents()), owned),
                      result, ended, keeps);
      Seen(probe, table, CondPush(mutex, ended, result, end), t.owned) ==
      WaitTail(probe.settings.maxEvents, tid, Joint(old(probe.View()), t), wroteBegin, wroteEnd)
  {
    ghost var now := if keeps then owned else owned - multiset{mutex};
    end := 0;
    if probe.settings.exact || Elapsed(begun, ended) >= probe.settings.threshold {
      var begin := exactBegin;
      if begin == 0 {
        begin := EmitWaitBegin(probe, table, tid, cond, mutex, begun, ended, result, wroteBegin, now);
      }
      if begin != 0 {
        end := EmitWaitEnd(probe, table, tid, cond, mutex, begun, ended, result, begin, wroteEnd, now);
      }
    }
  }

  /** `record_condition_wait` after the real wait. */
  method AfterWait(probe: Probe, table: HeldTable, tid: nat, cond: Token, mutex: Token, begun: nat, ended: nat,
                   result: int, exactBegin: nat, wroteBegin: bool, wroteEnd: bool, wroteAcquire: bool,
                   ghost keeps: bool, ghost owned: multiset<Token>)
    requires table.Valid()
    modifies probe, table`count, table.slots
    ensures table.Valid() && table.slots == old(table.slots)
    ensures
      var t := Resume(probe.settings, Thread(CondCall(cond, mutex, begun, exactBegin), old(table.Contents()), owned),
                      result, ended, keeps);
      Seen(probe, table, Idle, t.owned) ==
      Advance(probe.settings.maxEvents, tid,
              WaitTail(probe.settings.maxEvents, tid, Joint(old(probe.View()), t), wroteBegin, wroteEnd), wroteAcquire)
  {
    ghost var now := if keeps then owned else owned - multiset{mutex};
    var end := RecordWait(probe, table, tid, cond, mutex, begun, ended, result, exactBegin, wroteBegin, wroteEnd,
                          keeps, owned);
    RestoreAfterWait(probe, table, tid, mutex, ended, result, end, wroteAcquire, now);
  }
}
