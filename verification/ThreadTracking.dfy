/**
 The trace helper's set of target threads: kernel programs that insert a thread when it is forked
 and delete it when it exits, and the setup of a capture, which races with both.
 */
module ThreadTracking {

  type Tid = nat

  const CAPACITY: nat := 65536   // max_entries of target_tids

  /** The target's threads and the tracker's map. A thread is first `born` and visible in /proc, then
      its fork is traced and it is `alive`, then its exit is traced and it is `exiting` until it is
      reaped. `early`, `dropped` and `moved` single out live threads: there before the tracker was
      attached, forked while the map was full, and moved by an exec to a number that is not in the
      map. `foreign` are threads of other processes. */
  datatype Kernel = Kernel(leader: Tid, born: set<Tid>, alive: set<Tid>, exiting: set<Tid>, foreign: set<Tid>,
                           forkAttached: bool, exitAttached: bool,
                           targetTids: set<Tid>, early: set<Tid>, dropped: set<Tid>, moved: set<Tid>)

  datatype Event =
    | Birth(tid: Tid)
    | Fork(tid: Tid)
    | Exit(tid: Tid)
    | Reap(tid: Tid)
    | Exec(tid: Tid)
    | ForeignFork(tid: Tid)
    | ForeignExit(tid: Tid)

  function Visible(k: Kernel): set<Tid> {
    k.born + k.alive + k.exiting
  }

  predicate Accepts(targetTids: set<Tid>, tid: Tid) {
    tid in targetTids || |targetTids| < CAPACITY
  }

  /** A thread other than the leader has called exec and every other thread, the leader among them,
      has exited. */
  predicate CanMove(k: Kernel, tid: Tid) {
    k.alive == {tid} && k.born == {} && k.leader in k.exiting && tid != k.leader
  }

  /** The thread takes over the leader's number and its own is gone; no handler runs for that. */
  function Move(k: Kernel, tid: Tid): Kernel
    requires CanMove(k, tid)
  {
    k.(alive := {k.leader}, exiting := k.exiting - {k.leader}, dropped := {},
       early := if k.leader in k.targetTids || k.forkAttached then {} else {k.leader},
       moved := if k.leader in k.targetTids || !k.forkAttached then {} else {k.leader})
  }

  /** One kernel event, with the fork and exit handlers it triggers; an impossible one does nothing. */
  function Happen(k: Kernel, e: Event): Kernel {
    match e
    case Birth(tid) =>
      if tid in Visible(k) + k.foreign then k else k.(born := k.born + {tid})
    case Fork(tid) =>
      if tid !in k.born then k
      else
        var k := k.(born := k.born - {tid}, alive := k.alive + {tid});
        if !k.forkAttached then k.(early := k.early + {tid})
        else if Accepts(k.targetTids, tid) then k.(targetTids := k.targetTids + {tid})
        else k.(dropped := k.dropped + {tid})
    case Exit(tid) =>
      if tid !in k.alive then k
      else
        k.(alive := k.alive - {tid}, exiting := k.exiting + {tid}, early := k.early - {tid}, dropped := k.dropped - {tid},
           moved := k.moved - {tid}, targetTids := if k.exitAttached then k.targetTids - {tid} else k.targetTids)
    case Reap(tid) => k.(exiting := k.exiting - {tid})
    case Exec(tid) => if CanMove(k, tid) then Move(k, tid) else k
    case ForeignFork(tid) =>
      if tid in Visible(k) + k.foreign then k else k.(foreign := k.foreign + {tid})
    case ForeignExit(tid) =>
      if tid !in k.foreign then k
      else k.(foreign := k.foreign - {tid}, targetTids := if k.exitAttached then k.targetTids - {tid} else k.targetTids)
  }

  function Run(k: Kernel, events: seq<Event>): Kernel
    decreases |events|
  {
    if events == [] then k else Happen(Run(k, events[..|events| - 1]), events[|events| - 1])
  }

  /** What every event keeps. Until the exit handler is attached the map only grows, so a fork it
      could not take means that it is full. */
  ghost predicate Sane(k: Kernel) {
    && (forall t <- k.alive :: t !in k.born && t !in k.exiting && t !in k.foreign)
    && (forall t <- k.born :: t !in k.exiting && t !in k.foreign)
    && (forall t <- k.exiting :: t !in k.foreign)
    && (forall t <- k.early :: t in k.alive)
    && (forall t <- k.dropped :: t in k.alive && t !in k.targetTids)
    && (forall t <- k.moved :: t in k.alive && t !in k.targetTids)
    && (forall t <- k.alive :: t in k.targetTids || t in k.early || t in k.dropped || t in k.moved)
    && (!k.exitAttached && k.dropped != {} ==> |k.targetTids| >= CAPACITY)
    && (!k.forkAttached ==> k.dropped == {} && k.moved == {})
  }

  lemma Grown(small: set<Tid>, tid: Tid)
    ensures |small + {tid}| == |small| + if tid in small then 0 else 1
  {
    if tid in small {
      assert small + {tid} == small;
    }
  }

  lemma ForkKeepsSane(k: Kernel, tid: Tid)
    requires Sane(k)
    ensures Sane(Happen(k, Fork(tid)))
  {
    Grown(k.targetTids, tid);
  }

  lemma ExitKeepsSane(k: Kernel, tid: Tid)
    requires Sane(k)
    ensures Sane(Happen(k, Exit(tid)))
  {
  }

  lemma ForeignKeepsSane(k: Kernel, tid: Tid)
    requires Sane(k)
    ensures Sane(Happen(k, ForeignFork(tid))) && Sane(Happen(k, ForeignExit(tid)))
  {
  }

  lemma ExecKeepsSane(k: Kernel, tid: Tid)
    requires Sane(k)
    ensures Sane(Happen(k, Exec(tid)))
    ensures k.forkAttached ==> Happen(k, Exec(tid)).early <= k.early
  {
  }

  lemma HappenKeepsSane(k: Kernel, e: Event)
    requires Sane(k)
    ensures Sane(Happen(k, e))
    ensures k.forkAttached ==> Happen(k, e).early <= k.early
    ensures !k.exitAttached ==> k.targetTids <= Happen(k, e).targetTids
    ensures Happen(k, e).forkAttached == k.forkAttached && Happen(k, e).exitAttached == k.exitAttached
  {
    match e
    case Fork(tid) => ForkKeepsSane(k, tid);
    case Exit(tid) => ExitKeepsSane(k, tid);
    case Exec(tid) => ExecKeepsSane(k, tid);
    case ForeignFork(tid) => ForeignKeepsSane(k, tid);
    case ForeignExit(tid) => ForeignKeepsSane(k, tid);
    case _ =>
  }

  lemma {:induction false} RunKeepsSane(k: Kernel, events: seq<Event>)
    requires Sane(k)
    ensures Sane(Run(k, events))
    ensures k.forkAttached ==> Run(k, events).early <= k.early
    ensures !k.exitAttached ==> k.targetTids <= Run(k, events).targetTids
    ensures Run(k, events).forkAttached == k.forkAttached && Run(k, events).exitAttached == k.exitAttached
    decreases |events|
  {
    if events != [] {
      RunKeepsSane(k, events[..|events| - 1]);
      HappenKeepsSane(Run(k, events[..|events| - 1]), events[|events| - 1]);
    }
  }

  /** A live thread is missing from the map exactly when its fork found the map full or an exec moved
      it to a number that was not in the map. */
  ghost predicate Tracked(k: Kernel) {
    Sane(k) && forall t <- k.alive :: t in k.targetTids <==> t !in k.dropped + k.moved
  }

  ghost predicate Observing(k: Kernel) {
    k.forkAttached && Tracked(k) && k.early <= k.targetTids
  }

  lemma HappenStaysTracked(k: Kernel, e: Event)
    requires Observing(k)
    ensures Observing(Happen(k, e))
  {
    var after := Happen(k, e);
    HappenKeepsSane(k, e);
    assert forall t <- after.early :: t in k.early && t in k.targetTids;
    forall t <- after.early ensures t in after.targetTids {
      assert t in k.alive && t in after.alive;
    }
  }

  lemma {:induction false} ObservationStaysTracked(k: Kernel, events: seq<Event>)
    requires Observing(k)
    ensures Observing(Run(k, events))
    decreases |events|
  {
    if events != [] {
      ObservationStaysTracked(k, events[..|events| - 1]);
      HappenStaysTracked(Run(k, events[..|events| - 1]), events[|events| - 1]);
    }
  }

  /** A thread that is in the map stays there until its own exit or its move to another number. */
  lemma {:induction false} StaysUntilItsExit(k: Kernel, tid: Tid, events: seq<Event>)
    requires Observing(k) && tid in k.alive && tid in k.targetTids
    requires Exit(tid) !in events && Exec(tid) !in events
    ensures tid in Run(k, events).alive && tid in Run(k, events).targetTids
    decreases |events|
  {
    if events != [] {
      var before, last := events[..|events| - 1], events[|events| - 1];
      assert Exit(tid) != last && Exec(tid) != last;
      StaysUntilItsExit(k, tid, before);
      ObservationStaysTracked(k, before);
    }
  }

  function Forks(events: seq<Event>): nat {
    if events == [] then 0 else Forks(events[..|events| - 1]) + if events[|events| - 1].Fork? then 1 else 0
  }

  /** Nobody was missed for want of room, and there is room for `more` insertions. */
  ghost predicate Roomy(k: Kernel, more: nat) {
    k.dropped == {} && |k.targetTids| + more <= CAPACITY
  }

  lemma {:induction false} RoomLasts(k: Kernel, events: seq<Event>, more: nat)
    requires Roomy(k, Forks(events) + more)
    ensures Roomy(Run(k, events), more)
    decreases |events|
  {
    if events != [] {
      var before, last := events[..|events| - 1], events[|events| - 1];
      var one := if last.Fork? then 1 else 0;
      RoomLasts(k, before, more + one);
      Grown(Run(k, before).targetTids, last.tid);
      assert Run(k, before).targetTids - {last.tid} <= Run(k, before).targetTids;
      Shrunk(Run(k, before).targetTids, last.tid);
    }
  }

  lemma Shrunk(large: set<Tid>, tid: Tid)
    ensures |large - {tid}| <= |large|
  {
    if tid !in large {
      assert large - {tid} == large;
    }
  }

  /** While the map has room for every fork to come, no thread is missed but one that an exec moves. */
  lemma RoomMeansComplete(k: Kernel, events: seq<Event>)
    requires Observing(k) && Roomy(k, Forks(events))
    ensures var after := Run(k, events);
            after.alive - after.moved <= after.targetTids && Roomy(after, 0)
  {
    ObservationStaysTracked(k, events);
    RoomLasts(k, events, 0);
  }

  /** What the leader's own exit, once traced, and an exec by another thread after it come to. */
  ghost predicate LeaderGone(k: Kernel) {
    k.exitAttached && k.leader in k.exiting && k.leader !in k.targetTids + k.born + k.alive + k.foreign
  }

  lemma {:induction false} LeaderStaysGone(k: Kernel, events: seq<Event>)
    requires Observing(k) && LeaderGone(k)
    requires forall e <- events :: e != Reap(k.leader) && !e.Exec?
    ensures LeaderGone(Run(k, events)) && Run(k, events).leader == k.leader
    decreases |events|
  {
    if events != [] {
      var before, last := events[..|events| - 1], events[|events| - 1];
      assert last in events && forall e <- before :: e in events;
      LeaderStaysGone(k, before);
      ObservationStaysTracked(k, before);
    }
  }

  /** Once the leader's exit was observed, a thread that moves to the leader's number by exec is
      followed no longer: it runs on under a number that is not in the map. */
  lemma ExecGetsOutOfSight(k: Kernel, events: seq<Event>, tid: Tid)
    requires Observing(k) && k.exitAttached && k.leader in k.alive
    requires forall e <- events :: e != Reap(k.leader) && !e.Exec?
    requires CanMove(Run(Happen(k, Exit(k.leader)), events), tid)
    ensures var after := Happen(Run(Happen(k, Exit(k.leader)), events), Exec(tid));
            after.alive == {k.leader} && k.leader !in after.targetTids
  {
    var gone := Happen(k, Exit(k.leader));
    HappenStaysTracked(k, Exit(k.leader));
    LeaderStaysGone(gone, events);
  }

  /** With the map full, the next fork of a thread it does not hold starts a thread nobody sees. */
  lemma FullMapMissesAThread(k: Kernel, tid: Tid)
    requires Observing(k) && tid in k.born
    ensures var after := Happen(k, Fork(tid));
            tid in after.alive && (tid !in after.targetTids <==> !Accepts(k.targetTids, tid))
  {
    HappenKeepsSane(k, Fork(tid));
  }

  /** The threads visible at every moment of a run, and at some moment of it. */
  function Throughout(k: Kernel, events: seq<Event>): set<Tid> {
    if events == [] then Visible(k) else Throughout(k, events[..|events| - 1]) * Visible(Run(k, events))
  }

  function Ever(k: Kernel, events: seq<Event>): set<Tid> {
    if events == [] then Visible(k) else Ever(k, events[..|events| - 1]) + Visible(Run(k, events))
  }

  function AllForks(gaps: seq<seq<Event>>): nat {
    if gaps == [] then 0 else Forks(gaps[0]) + AllForks(gaps[1..])
  }

  function From(gaps: seq<seq<Event>>, n: nat): seq<seq<Event>> {
    if n < |gaps| then gaps[n..] else []
  }

  lemma RoomInGap(k: Kernel, gaps: seq<seq<Event>>, n: nat, todo: nat)
    requires n < |gaps|
    requires Roomy(k, todo + AllForks(From(gaps, n)))
    ensures Roomy(Run(k, gaps[n]), todo + AllForks(From(gaps, n + 1)))
  {
    assert gaps[n..][1..] == From(gaps, n + 1);
    RoomLasts(k, gaps[n], todo + AllForks(From(gaps, n + 1)));
  }

  /** One insertion with room for it. */
  lemma RoomForOne(k: Kernel, tid: Tid, more: nat)
    requires Roomy(k, 1 + more)
    ensures Accepts(k.targetTids, tid) && Roomy(Inserted(k, tid), more)
  {
    Grown(k.targetTids, tid);
  }

  function Inserted(k: Kernel, tid: Tid): Kernel {
    k.(targetTids := k.targetTids + {tid}, moved := k.moved - {tid})
  }

  lemma InsertionKeepsSane(k: Kernel, tid: Tid)
    requires Sane(k) && !k.exitAttached && Accepts(k.targetTids, tid)
    ensures Sane(Inserted(k, tid))
  {
    Grown(k.targetTids, tid);
  }

  // ----- The setup of a capture

  function Attached(k: Kernel): Kernel {
    k.(forkAttached := true)
  }

  /** The insertions that filling the map may come to: the forks it races with and the threads it can scan. */
  function Filling(k: Kernel, e0: seq<Event>, scan: seq<Event>, gaps: seq<seq<Event>>): nat {
    Forks(e0) + Forks(scan) + |Ever(Run(k, e0), scan)| + AllForks(gaps)
  }

  lemma RoomForSetup(k: Kernel, e0: seq<Event>, scan: seq<Event>, tids: set<Tid>, more: nat)
    requires Roomy(k, Forks(e0) + Forks(scan) + |Ever(Run(k, e0), scan)| + more)
    requires tids <= Ever(Run(k, e0), scan)
    ensures Roomy(Run(Run(k, e0), scan), |tids| + more)
  {
    var ever := Ever(Run(k, e0), scan);
    assert ever == tids + (ever - tids);
    RoomLasts(k, e0, Forks(scan) + |ever| + more);
    RoomLasts(Run(k, e0), scan, |ever| + more);
  }

  class Capture {
    var kernel: Kernel

    constructor (kernel: Kernel)
      ensures this.kernel == kernel
    {
      this.kernel := kernel;
    }

    /** Other tasks run. */
    method Meanwhile(events: seq<Event>)
      modifies this
      ensures kernel == Run(old(kernel), events)
    {
      for n := 0 to |events|
        invariant kernel == Run(old(kernel), events[..n])
      {
        assert events[..n + 1][..n] == events[..n];
        kernel := Happen(kernel, events[n]);
      }
      assert events[..|events|] == events;
    }

    /** `enumerate_target_tids`: while threads come and go, the scan returns every thread that is
        visible throughout, and of the others whichever it happens to meet. */
    method EnumerateTargetTids(events: seq<Event>, met: set<Tid>) returns (tids: set<Tid>)
      requires Sane(kernel) && kernel.forkAttached
      modifies this
      ensures kernel == Run(old(kernel), events) && kernel.early <= tids
      ensures Throughout(old(kernel), events) <= tids <= Ever(old(kernel), events)
    {
      var throughout, ever := Visible(kernel), Visible(kernel);
      for n := 0 to |events|
        invariant kernel == Run(old(kernel), events[..n]) && Sane(kernel) && kernel.forkAttached
        invariant kernel.early <= throughout <= ever
        invariant throughout == Throughout(old(kernel), events[..n]) && ever == Ever(old(kernel), events[..n])
      {
        assert events[..n + 1][..n] == events[..n];
        HappenKeepsSane(kernel, events[n]);
        kernel := Happen(kernel, events[n]);
        throughout, ever := throughout * Visible(kernel), ever + Visible(kernel);
      }
      assert events[..|events|] == events;
      tids := throughout + met * ever;
    }

    /** The insertion of the scanned threads, with `gaps[n]` before the n-th. */
    method AddTargetTids(tids: set<Tid>, gaps: seq<seq<Event>>, ghost more: nat) returns (ok: bool)
      requires Sane(kernel) && kernel.forkAttached && !kernel.exitAttached && kernel.early <= tids
      modifies this
      ensures Sane(kernel) && kernel.forkAttached && !kernel.exitAttached
      ensures ok ==> kernel.early <= kernel.targetTids && old(kernel.targetTids) + tids <= kernel.targetTids
      ensures Roomy(old(kernel), |tids| + AllForks(gaps) + more) ==> ok && Roomy(kernel, more)
    {
      ghost var enough := Roomy(kernel, |tids| + AllForks(gaps) + more);
      var todo, n := tids, 0;
      while todo != {}
        invariant Sane(kernel) && kernel.forkAttached && !kernel.exitAttached
        invariant todo <= tids && kernel.early <= kernel.targetTids + todo
        invariant old(kernel.targetTids) + (tids - todo) <= kernel.targetTids
        invariant enough ==> Roomy(kernel, |todo| + more + AllForks(From(gaps, n)))
        decreases todo
      {
        if n < |gaps| {
          RunKeepsSane(kernel, gaps[n]);
          if enough {
            RoomInGap(kernel, gaps, n, |todo| + more);
          }
          Meanwhile(gaps[n]);
        }
        var tid :| tid in todo;
        assert |todo - {tid}| == |todo| - 1;
        if enough {
          RoomForOne(kernel, tid, |todo - {tid}| + more + AllForks(From(gaps, n + 1)));
        }
        if !Accepts(kernel.targetTids, tid) {
          return false;
        }
        InsertionKeepsSane(kernel, tid);
        kernel := Inserted(kernel, tid);
        todo, n := todo - {tid}, n + 1;
      }
      return true;
    }

    /** The fork tracker, the scan and the insertions. */
    method FillMap(e0: seq<Event>, scan: seq<Event>, met: set<Tid>, gaps: seq<seq<Event>>, ghost more: nat)
      returns (ok: bool)
      requires Sane(kernel) && !kernel.forkAttached && !kernel.exitAttached
      modifies this
      ensures ok ==> Observing(kernel) && !kernel.exitAttached
      ensures Roomy(old(kernel), Filling(Attached(old(kernel)), e0, scan, gaps) + more) ==> ok && Roomy(kernel, more)
    {
      kernel := Attached(kernel);
      ghost var k0 := kernel;
      RunKeepsSane(kernel, e0);
      Meanwhile(e0);
      RunKeepsSane(kernel, scan);
      var tids := EnumerateTargetTids(scan, met);
      if Roomy(k0, Filling(k0, e0, scan, gaps) + more) {
        RoomForSetup(k0, e0, scan, tids, AllForks(gaps) + more);
      }
      ok := AddTargetTids(tids, gaps, more);
    }

    /** The other programs are attached after that. */
    method AttachRest(e1: seq<Event>, e2: seq<Event>)
      requires Observing(kernel) && !kernel.exitAttached
      modifies this
      ensures kernel == Run(Run(old(kernel), e1).(exitAttached := true), e2)
      ensures kernel.exitAttached && Observing(kernel)
    {
      ObservationStaysTracked(kernel, e1);
      Meanwhile(e1);
      kernel := kernel.(exitAttached := true);
      ObservationStaysTracked(kernel, e2);
      RunKeepsSane(kernel, e2);
      Meanwhile(e2);
    }

    /** `capture` up to its observation: the fork tracker, the scan, the insertions, and only then
        the other programs. Whatever the threads do meanwhile, when observation starts and at every
        moment of it the map holds each live thread whose fork did not find the map full and that no
        exec moved. With room for all that the setup may have to insert, it succeeds and misses no fork. */
    method Start(e0: seq<Event>, scan: seq<Event>, met: set<Tid>, gaps: seq<seq<Event>>, e1: seq<Event>, e2: seq<Event>)
      returns (ok: bool)
      requires Sane(kernel) && !kernel.forkAttached && !kernel.exitAttached
      modifies this
      ensures ok ==> kernel.exitAttached && Observing(kernel)
      ensures ok ==> forall events :: Tracked(Run(kernel, events))
      ensures Roomy(old(kernel), Filling(Attached(old(kernel)), e0, scan, gaps) + Forks(e1) + Forks(e2)) ==>
                ok && kernel.alive - kernel.moved <= kernel.targetTids
    {
      ghost var enough := Roomy(kernel, Filling(Attached(kernel), e0, scan, gaps) + Forks(e1) + Forks(e2));
      ok := FillMap(e0, scan, met, gaps, Forks(e1) + Forks(e2));
      if !ok {
        return;
      }
      if enough {
        RoomLasts(kernel, e1, Forks(e2));
        RoomLasts(Run(kernel, e1).(exitAttached := true), e2, 0);
      }
      AttachRest(e1, e2);
      forall events ensures Tracked(Run(kernel, events)) {
        ObservationStaysTracked(kernel, events);
      }
    }
  }
}
