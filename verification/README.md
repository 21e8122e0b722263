# PerfLens: models and proofs of the collection protocols

This Dafny project models the parts of PerfLens whose guarantees span several functions and every
run, and proves those guarantees. `dafny verify dfyconfig.toml` checks all of it.

PerfLens collects performance evidence from running processes. A preloaded pthread probe writes a
stream of lock events; a runtime supervisor starts a workload, watches it and tears its process tree
down; a privileged helper runs `perf` for plans that it consumes once and publishes the results in a
spool; a trace helper keeps a kernel map of the target's threads; an administrator archives and prunes
the spool; and an analysis states its own serialized length. Each of them is a protocol with an
environment that may act between any two of its steps, and that environment is explicit here: other
threads, other processes, crashes, chunked streams, changes to a directory.

## How the model is built

Shared state that the source updates in place is a class with the same fields. Its methods are proved
equal to functions on values, and the theorems about all runs are lemmas about those functions. Where
other processes run in between, a class holds a schedule: what happens before each coming system call.
The theorems hold for every schedule.

| files | what they model |
|---|---|
| `ProbeNumbers` | the probe's line builder, decimal writer and decimal parser |
| `ProbeStream`, `HeldLocks`, `ProbeThreads`, `ProbeWrappers` | the probe's output channel, its 128-slot table of held locks, the wrappers as programs of steps, and the C functions that carry them out |
| `ProbeRuns`, `ProbeCausality`, `ProbeExactness`, `ProbeLedger` | runs of any number of threads: the shape of the stream, the links between records, the exactness of the table, the stream as a ledger of ownership |
| `ProcessTree`, `SupervisorSignals`, `SupervisorLifecycle` | the supervised closure, the process table with signals through pidfds under pid reuse, the life of the leader in that table |
| `BoundedEvidence`, `RequestFrames`, `DescriptorSweep` | the bounded copier of a pipe, the length-prefixed frames, the closing of inherited descriptors |
| `ReplayProtection`, `SpoolPublication`, `EventFallback`, `PerfAcknowledgements` | the helper: plans executed once, publication that survives crashes, the hardware and software time budget, the acknowledgement reader |
| `ThreadTracking` | the trace helper's setup and its fork and exit handlers |
| `SpoolSelection`, `SpoolArchive` | which files are old enough, and the archive's manifest and its verification |
| `SpoolFiles`, `SpoolPruning` | the spool's files while others change them, the steps of archiving and pruning, and that spool and archives lose nothing |
| `ContentBytes` | the artifact that states its own length |
| `Options` | an optional value |

## What the proofs found

In these places the code keeps less than its documentation or its neighbours suggest. The model follows
the code; the project holds an input that shows the failure, or the exact condition under which the
property holds.

* The probe's constructor sets the active flag before it writes the header, and writes the header
  without the output lock. A thread that is already running can put an event before the header. The
  stream is well shaped exactly when no event was attempted in between
  (`ProbeRuns.WellShapedIffLoadWasSilent`); the records other than the header are in order in any case
  (`ProbeRuns.RecordsAreInOrder`).
* A lock call that returns `EOWNERDEAD` hands the lock over, but the probe treats it as a failure; and a
  condition wait with any result but 0 and `ETIMEDOUT` does not put the mutex back into the table. The
  table is exact if and only if this does not happen (`ProbeExactness.LockCallIsExactUnlessOwnerDied`,
  `ProbeExactness.WaitIsExactUnlessItFails`).
* The helper keeps a marker for exactly the longest time a plan may live, and compares its modification
  time with the system clock. Where file times lag the clock by any amount, a request can be executed
  twice; without lag it never is (`ReplayProtection.AtMostOnceIffMarkersDoNotLag`). For one request, it
  depends on its remaining lifetime and its own marker's age alone
  (`ReplayProtection.RunsOnceIffMarkerOutlivesIt`).
* A crash between the change of mode and the change of group leaves a temporary file that recovery
  refuses for good, if the artifact group is not the helper's own group
  (`SpoolPublication.CrashPointRecovers`). Over any sequence of crashes and recoveries that is the only
  way to lose the use of the spool, and no result is ever lost (`SpoolPublication.LivesLoseNothing`).
* Between the read of a source and its removal pruning looks at its size and time once more, then at its
  device and inode, and then unlinks it by name. A change that passes the looks still to come is
  removed unseen: any change after the last look but the removal of the name itself, before that a write
  in place or a replacement with the same inode number, and before the second look a write that keeps
  size and time. The file that goes matches its entry if and only if the change did not touch it or put the same bytes, size and time back
  (`SpoolFiles.LateEvent`). Nothing else is ever lost (`SpoolPruning.RunCommands`).
* The fork handler ignores a full map of target threads, so a thread can be missed
  (`ThreadTracking.FullMapMissesAThread`); the capture itself fails only if an insertion during its setup
  fails. And after the leader has exited, a thread that takes over its number by exec is no longer
  followed (`ThreadTracking.ExecGetsOutOfSight`).
* A retry is charged with what the abandoned attempt used, so the configured durations of the attempts
  exceed the plan's duration if and only if there is a retry (`EventFallback.ExecutePerf`).
* An analysis that is too long is refused by the validation of its own contract in some round of the
  loop. The error that the loop itself raises for an exceeded output budget is never reached
  (`ContentBytes.IdentifyAnalysis`).
* The emergency cleanup kills the leader by number before it waits for it. That is safe because the
  kernel keeps an exited child's pid until it is waited for (`SupervisorLifecycle.Supervise`); where the
  kernel is told to reap children by itself, the kill can reach a stranger
  (`SupervisorLifecycle.AutoReapMisleads`).

## Model

| member | source | states |
|---|---|---|
| `ProbeRuns.RecordsAreInOrder` | native/pthread_probe/perflens_pthread_probe.c:535-608 | In every run of any number of threads, the constructor and the destructor, wrappers called during the constructor included: the stream without its header is events numbered 1..k with k within the budget, then at most one footer that declares exactly k, carries k+1 and is truncated exactly when its lost count is positive (until 2^64 losses wrap it), or one failed write; a footer or a failed write ends it |
| `ProbeRuns.StreamOnlyGrows` | native/pthread_probe/perflens_pthread_probe.c:493-523 | From any state, the stream only ever gets longer, and once a footer or a failed write has closed it nothing is added |
| `ProbeRuns.WellShapedIffLoadWasSilent` | native/pthread_probe/perflens_pthread_probe.c:740-743 | For every run that has loaded the probe, the whole stream is header, events 1..k and at most one closing record if and only if no step between the publication of the active flag and the header was an attempt to write an event to the open channel |
| `ProbeRuns.LoudLoadPutsAnEventFirst` | native/pthread_probe/perflens_pthread_probe.c:740-743 | A wrapper call between those two steps does put an event before the header |
| `ProbeRuns.EveryAttemptIsWrittenOrCounted` | native/pthread_probe/perflens_pthread_probe.c:525-608 | Over every run, the events in the stream plus the losses counted are the attempts made while the channel was open plus the losses of full tables and cancelled waits |
| `ProbeStream.Probe.NoteLost` | native/pthread_probe/perflens_pthread_probe.c:525-533 | The lost counter grows modulo 2^64 and the stream becomes truncated; nothing else changes |
| `ProbeStream.Probe.Mark` | native/pthread_probe/perflens_pthread_probe.c:525-533 | Losses are counted only once the probe is configured |
| `ProbeStream.Probe.Emit` | native/pthread_probe/perflens_pthread_probe.c:535-608 | The in-place update of budget, sequence, flags and stream is the atomic channel step that the run theorems are about |
| `ProbeStream.Probe.Initialize` | native/pthread_probe/perflens_pthread_probe.c:724-750 | The constructor publishes the channel and then writes the header; a failed header deactivates it |
| `ProbeStream.Probe.Finalize` | native/pthread_probe/perflens_pthread_probe.c:493-523 | The destructor closes the channel before it writes the footer, once, and only when configured |
| `ProbeNumbers.ParseIsExact` | native/pthread_probe/perflens_pthread_probe.c:322-346 | For every 64-bit range and every text of any length, the parser accepts exactly the digit strings whose number is in the range, although the subtraction in its guard and its sum can wrap |
| `ProbeNumbers.NothingWraps` | native/pthread_probe/perflens_pthread_probe.c:335-338 | Where the maximum is below 9 and the guard does wrap, the only number that a further digit could wrap has a zero in it, which the guard refuses |
| `ProbeNumbers.DecimalRoundTrip` | native/pthread_probe/perflens_pthread_probe.c:143-155 | The decimal text of a number is read back as that number exactly when it is in the range |
| `ProbeNumbers.EachIsWhole` | native/pthread_probe/perflens_pthread_probe.c:143-155 | Writing a text character by character gives the same line as writing it at once, or both overflow |
| `ProbeNumbers.ParseU64` | native/pthread_probe/perflens_pthread_probe.c:322-346 | The loop parses exactly what is meant; a missing text is refused |
| `ProbeNumbers.Builder.Bytes` | native/pthread_probe/perflens_pthread_probe.c:129-139 | A piece is appended whole, or the line has overflowed for good and keeps what it had |
| `ProbeNumbers.Builder.U64` | native/pthread_probe/perflens_pthread_probe.c:143-155 | The line grows by exactly the decimal text of the number, or it overflows exactly when that text does not fit |
| `ProbeNumbers.Builder.Digits` | native/pthread_probe/perflens_pthread_probe.c:146-150 | The buffer holds the decimal digits from last to first, at most 20 of them |
| `HeldLocks.NewestMatch` | native/pthread_probe/perflens_pthread_probe.c:793-808 | The scan finds the highest slot with the token, or none |
| `HeldLocks.TakeNewestTokens` | native/pthread_probe/perflens_pthread_probe.c:793-808 | A removal finds an entry if and only if the token is in the table, and takes exactly one occurrence out of the multiset of tokens |
| `HeldLocks.RemoveTokens` | native/pthread_probe/perflens_pthread_probe.c:793-808 | Closing the gap at any slot loses that token and no other |
| `HeldLocks.HeldTable.Push` | native/pthread_probe/perflens_pthread_probe.c:778-791 | The entry is appended behind the others exactly when there is a free slot; a full table keeps what it has |
| `HeldLocks.HeldTable.CloseGap` | native/pthread_probe/perflens_pthread_probe.c:798-803 | Shifting in place leaves the entries before and after the slot in their order |
| `HeldLocks.HeldTable.Take` | native/pthread_probe/perflens_pthread_probe.c:793-808 | The newest match is returned and removed, the order of the rest is kept, and a miss changes nothing |
| `ProbeCausality.EveryRunIsCausal` | native/pthread_probe/perflens_pthread_probe.c:833-874 | In every run, whatever happened during the constructor, each wait_end, acquire and release record points to a strictly earlier record of the same thread and token and of the required kind, with the printed duration or hold time equal to the time between the two; no record is the target of two links; and with the header put first a link number is the position of its target |
| `ProbeCausality.SilentRunIsCausal` | native/pthread_probe/perflens_pthread_probe.c:833-874 | After a load without attempts the stream has that order as it stands |
| `ProbeCausality.StepElsewhere` | native/pthread_probe/perflens_pthread_probe.c:833-1092 | What a step writes and does to its thread does not depend on what the stream already holds |
| `ProbeCausality.EmitKeepsRefs` | native/pthread_probe/perflens_pthread_probe.c:535-608 | Writing one event consumes only the reference it links to and creates one for the writer |
| `ProbeCausality.RecordReleaseIsSound` | native/pthread_probe/perflens_pthread_probe.c:866-874 | A release links to the acquire record of the entry it removes, and leaves every other thread's pending links alone |
| `ProbeCausality.CondTakeIsSound` | native/pthread_probe/perflens_pthread_probe.c:1058-1065 | The release before a condition wait keeps all pending links of all threads proper |
| `ProbeCausality.CondPushIsSound` | native/pthread_probe/perflens_pthread_probe.c:1084-1090 | The mutex re-enters the table with the number of its own new acquire record, or with none |
| `ProbeCausality.LockAcquireIsSound` | native/pthread_probe/perflens_pthread_probe.c:860-863 | The acquire record uses up the wait_end it links to, and its own number enters the table once |
| `ProbeCausality.ThreadStepIsSound` | native/pthread_probe/perflens_pthread_probe.c:833-1092 | Every step of every wrapper keeps all links written so far proper and all links still to be written available |
| `ProbeExactness.TableIsExact` | native/pthread_probe/perflens_pthread_probe.c:793-808 | In exact mode, in every run in which threads release only what they own and calls return the expected results, a thread between two wrappers has in its table exactly the multiset of locks it owns, as long as nothing is truncated and the footer is not written |
| `ProbeExactness.LockCallIsExactUnlessOwnerDied` | native/pthread_probe/perflens_pthread_probe.c:833-864 | A lock call keeps the table exact if and only if its result is not EOWNERDEAD, which hands over the lock although the probe records a failure |
| `ProbeExactness.WaitIsExactUnlessItFails` | native/pthread_probe/perflens_pthread_probe.c:1045-1092 | A condition wait that ends with the mutex owned keeps the table exact if and only if it returns 0 or ETIMEDOUT |
| `ProbeExactness.ReleaseBalances` | native/pthread_probe/perflens_pthread_probe.c:866-874 | A release takes the first listed candidate and exactly one token |
| `ProbeExactness.ThreadStepBalances` | native/pthread_probe/perflens_pthread_probe.c:833-1092 | Each step keeps the difference between table and owned locks that its position in the wrapper stands for |
| `ProbeLedger.StreamIsALedger` | native/pthread_probe/perflens_pthread_probe.c:833-1092 | In every run, in either mode, while nothing is lost and until the footer: for each thread that does not end and each token, acquire records minus release records are the recorded entries of its table, and wait_begin minus wait_end records are the wait it is in, at every step |
| `ProbeLedger.OwnershipIsInTheStream` | native/pthread_probe/perflens_pthread_probe.c:833-1092 | In exact mode the stream alone tells what a thread owns between two wrappers: for every token, its acquire records minus its release records; and every wait it began has ended |
| `ProbeLedger.ReleaseBooks` | native/pthread_probe/perflens_pthread_probe.c:866-874 | What a release takes out of the table it puts into the stream |
| `ProbeLedger.EntryBalances` | native/pthread_probe/perflens_pthread_probe.c:860-863 | An acquire record and its table entry come together |
| `ProbeLedger.StepBooks` | native/pthread_probe/perflens_pthread_probe.c:833-1092 | Each step of each wrapper keeps the books of its thread |
| `ProbeLedger.StepLeavesOthers` | native/pthread_probe/perflens_pthread_probe.c:535-608 | No step changes the books of another thread |
| `ProbeWrappers.HeldPush` | native/pthread_probe/perflens_pthread_probe.c:778-791 | A push into a full table counts one loss and leaves the table; otherwise it appends |
| `ProbeWrappers.RecordLockResult` | native/pthread_probe/perflens_pthread_probe.c:833-864 | The C function, run without interruption, does exactly what the interleaved steps of a lock wrapper do after the real call |
| `ProbeWrappers.RecordOneRelease` | native/pthread_probe/perflens_pthread_probe.c:866-874 | The C function is one step of the release program; it returns true exactly when the newest entry for the token has an acquire record |
| `ProbeWrappers.RecordRwlockRelease` | native/pthread_probe/perflens_pthread_probe.c:1005-1012 | The read token is tried first and the write token only if the first try released nothing |
| `ProbeWrappers.CandidatesInTurn` | native/pthread_probe/perflens_pthread_probe.c:1005-1012 | Trying candidates one call after the other is the release of a candidate list |
| `ProbeWrappers.BeforeWait` | native/pthread_probe/perflens_pthread_probe.c:1049-1065 | The part of a condition wait before the real call is the wait_begin and release steps of the program |
| `ProbeWrappers.RecordWait` | native/pthread_probe/perflens_pthread_probe.c:1067-1083 | The records of the wait itself are the steps after the real call |
| `ProbeWrappers.RestoreAfterWait` | native/pthread_probe/perflens_pthread_probe.c:1084-1090 | The mutex goes back into the table exactly after 0 and ETIMEDOUT, recorded only where an end record and a slot exist |
| `ProbeWrappers.AfterWait` | native/pthread_probe/perflens_pthread_probe.c:1066-1092 | The whole second half of a condition wait is the program's steps |
| `ProcessTree.AcceptedPids` | rust/perflens-runtime-supervisor/src/process.rs:1219-1253 | The two loops end and yield the least set of pids that holds the leader and the non-excluded direct children and is closed under the child relation |
| `ProcessTree.SupervisedFromSnapshot` | rust/perflens-runtime-supervisor/src/process.rs:1219-1253 | The result lists exactly the accepted pids in ascending order, each with the snapshot's identity for it |
| `ProcessTree.ExcludedStayOut` | rust/perflens-runtime-supervisor/src/process.rs:1219-1253 | In an acyclic parent relation whose leader is a child of the supervisor, neither the supervisor nor an excluded child nor anything reached only through excluded children is accepted |
| `ProcessTree.ExcludedChildIffLeader` | rust/perflens-runtime-supervisor/src/process.rs:1219-1253 | Where the supervisor stays out, an excluded child is accepted if and only if it is the leader |
| `SupervisorSignals.SameProcess` | rust/perflens-runtime-supervisor/src/process.rs:1109-1131 | A process seen with a (pid, start time) key known from before is the process that had it then |
| `SupervisorSignals.ConfirmedIsTheTarget` | rust/perflens-runtime-supervisor/src/process.rs:1118-1128 | If the second read still shows the key, the pidfd opened before it names the scanned process |
| `SupervisorSignals.SignalOneHitsItsTarget` | rust/perflens-runtime-supervisor/src/process.rs:1109-1131 | Whatever forks, exits, reparenting and pid reuse happen between read, open, read and send, a signal reaches the process whose key was scanned or nobody |
| `SupervisorSignals.SameTickReuseMisleads` | rust/perflens-runtime-supervisor/src/process.rs:1109-1131 | Without unique (pid, start time) keys the rule fails: a process that takes the pid in the same tick is signalled |
| `SupervisorSignals.ProcessSnapshot` | rust/perflens-runtime-supervisor/src/process.rs:1133-1162 | Every identity of a scan is the key of a process that existed by its end; undisturbed, the scan finds every listed process |
| `SupervisorSignals.ConfirmAndSignal` | rust/perflens-runtime-supervisor/src/process.rs:1118-1128 | Read again, compare, send, with other processes running in between |
| `SupervisorSignals.SignalIdentity` | rust/perflens-runtime-supervisor/src/process.rs:1109-1131 | One turn of the loop is the four-call protocol the safety lemma is about |
| `SupervisorSignals.CalmSignalArrives` | rust/perflens-runtime-supervisor/src/process.rs:1109-1131 | Undisturbed, a present process is signalled and an absent one is skipped |
| `SupervisorSignals.SignalNext` | rust/perflens-runtime-supervisor/src/process.rs:1109-1131 | One turn of the loop keeps the rule that only known targets are signalled |
| `SupervisorSignals.SignalIdentities` | rust/perflens-runtime-supervisor/src/process.rs:1109-1131 | Over a whole loop only processes with a given key are signalled, and the answer says truthfully whether any was; undisturbed, each of them that is there gets the signal |
| `SupervisorSignals.SignalSupervisedTree` | rust/perflens-runtime-supervisor/src/process.rs:1091-1107 | Scan, closure and signals together: only processes of the least closed set that existed by the end of the scan are ever signalled; undisturbed, all of them are |
| `SupervisorLifecycle.NumberMeansLeader` | rust/perflens-runtime-supervisor/src/process.rs:1271-1319 | While the leader is unreaped its pid and its process group number stand for it and its group alone, whatever was forked, reparented or moved between groups |
| `SupervisorLifecycle.ReapAdopted` | rust/perflens-runtime-supervisor/src/process.rs:1255-1269 | A pass that skips the leader reaps other children alone; a pass that does not may run only once the leader is gone |
| `SupervisorLifecycle.TeardownTree` | rust/perflens-runtime-supervisor/src/process.rs:997-1049 | Teardown neither kills by number nor reaps the leader, so where the kernel keeps exited children an unreaped leader keeps its pid through it |
| `SupervisorLifecycle.KillTurn` | rust/perflens-runtime-supervisor/src/process.rs:1017-1049 | One turn of kill, reap and scan keeps the same rule |
| `SupervisorLifecycle.FinalizeAdopted` | rust/perflens-runtime-supervisor/src/process.rs:1051-1078 | After the leader is gone its pid is a pid like any other, and nothing is killed by number |
| `SupervisorLifecycle.WaitForLeader` | rust/perflens-runtime-supervisor/src/process.rs:1321-1379 | A wait that does not fail leaves the leader reaped, and returns it if and only if it was still unreaped |
| `SupervisorLifecycle.KillLeader` | rust/perflens-runtime-supervisor/src/process.rs:1276-1281 | Where the kernel keeps exited children, both kills by number reach the leader or members of its group and nobody else |
| `SupervisorLifecycle.EmergencyCleanup` | rust/perflens-runtime-supervisor/src/process.rs:1271-1319 | Both kills come first, nothing in between reaps or names the leader, and the wait that follows reaps it unless the wait fails |
| `SupervisorLifecycle.CompleteSpawnedChild` | rust/perflens-runtime-supervisor/src/process.rs:509-609 | At most one wait for the leader, after all stages before it succeeded, and no kill by number; the outcome tells how that wait ended |
| `SupervisorLifecycle.Supervise` | rust/perflens-runtime-supervisor/src/process.rs:159-215 | For every schedule of forks, exits, group changes and pid reuse between any two system calls: no kill by number follows any wait that took the leader, including the waits for adopted children, and it is reaped at most once; where the kernel keeps exited children every kill by number reaches the leader or its group, and unless a wait fails the leader ends reaped; a receipt means that nothing was killed by number |
| `SupervisorLifecycle.AutoReapMisleads` | rust/perflens-runtime-supervisor/src/process.rs:1271-1319 | Where the kernel reaps exited children by itself the rule fails: the emergency kill reaches the process that took over the pid |
| `DescriptorSweep.CloseAllExcept` | rust/perflens-runtime-supervisor/src/process.rs:811-833 | After success exactly the standard streams and the retained descriptors are open; a refused call never closes one that stays |
| `DescriptorSweep.Descriptors.CloseRange` | rust/perflens-runtime-supervisor/src/process.rs:825-832 | A call closes exactly its range or nothing |
| `BoundedEvidence.DrainedIsFaithful` | rust/perflens-runtime-supervisor/src/process.rs:368-433 | Until a write fails, the file holds the first bytes received up to the bound, and the bound error is raised if and only if more came |
| `BoundedEvidence.ChecksAreFaithful` | rust/perflens-runtime-supervisor/src/process.rs:368-433 | The same over any number of checks |
| `BoundedEvidence.ChunkingDoesNotMatter` | rust/perflens-runtime-supervisor/src/process.rs:368-433 | File and verdict depend on the bytes alone, not on how reads cut them |
| `BoundedEvidence.BoundedStream.Store` | rust/perflens-runtime-supervisor/src/process.rs:368-412 | A chunk is cut at the room that is left; a failed write leaves a part and is reported |
| `BoundedEvidence.BoundedStream.Check` | rust/perflens-runtime-supervisor/src/process.rs:368-433 | The loop over the pipe computes the drained copy |
| `BoundedEvidence.BoundedStream.Finish` | rust/perflens-runtime-supervisor/src/process.rs:435-445 | Success means that the pipe is closed and the file is the whole stream; the bound error means that it is the allowed prefix of a longer one |
| `RequestFrames.LengthRoundTrip` | rust/perflens-runtime-supervisor/src/lib.rs:1048-1066 | Every length survives encoding and decoding |
| `RequestFrames.PrefixRoundTrip` | rust/perflens-runtime-supervisor/src/lib.rs:926-966 | Every four-byte prefix survives decoding and encoding |
| `RequestFrames.DecodeInvertsEncode` | rust/perflens-runtime-supervisor/src/lib.rs:926-966 | A stream is a frame of payload p if and only if it is the big-endian length of p followed by p, with length 1 to 65536 and nothing after it |
| `RequestFrames.ReadPart` | rust/perflens-runtime-supervisor/src/lib.rs:968-997 | Whatever the reads return and however often they block, the part is the next bytes of the stream, or malformed where it ends early, unless a turn was in trouble; then the first trouble is the result |
| `RequestFrames.ReadFrame` | rust/perflens-runtime-supervisor/src/lib.rs:926-966 | For every chunking and every pattern of blocked reads the result is what the whole stream means, unless a signal, a lost parent, the deadline, a failing read or a failing poll came up in a turn that was used; then the first of them is the result |
| `RequestFrames.WriteFrame` | rust/perflens-runtime-supervisor/src/lib.rs:1048-1066 | A frame is sent whole, for payloads of 1 to 65536 bytes, and reading it gives the payload back; or the call fails, and then what was sent is a proper part of the frame, which no reader accepts |
| `RequestFrames.Sink.WriteAll` | rust/perflens-runtime-supervisor/src/lib.rs:1064-1065 | Over partial and interrupted writes exactly a prefix arrives, the whole text if and only if the call succeeds |
| `RequestFrames.TornFrameIsRefused` | rust/perflens-runtime-supervisor/src/lib.rs:926-966 | A frame that was cut anywhere is malformed |
| `ReplayProtection.AtMostOnceIffMarkersDoNotLag` | rust/perflens-privileged-helper/src/execution.rs:808-853 | No request is executed twice in any history of connections and restarts if and only if marker times never lag the clock |
| `ReplayProtection.RunsOnceIffMarkerOutlivesIt` | rust/perflens-privileged-helper/src/execution.rs:808-853 | A request that has just run can run again in some future if and only if its remaining lifetime and its marker's age at birth together exceed the retention, whatever other requests and their markers do |
| `ReplayProtection.SpentForever` | rust/perflens-privileged-helper/src/execution.rs:808-853 | A request that has expired or whose marker outlives it never runs again, over every sequence of visits with any lags |
| `ReplayProtection.LaggingMarkerAllowsReplay` | rust/perflens-privileged-helper/src/execution.rs:838-841 | One nanosecond of lag is enough: another plan's pruning removes the marker just before the request expires and it is accepted again |
| `ReplayProtection.ScanOnlyRemovesOld` | rust/perflens-privileged-helper/src/execution.rs:808-853 | Pruning removes only markers at or before the cutoff, changes none, and never the one of the plan at hand; a scan that reaches its end leaves no listed marker of that age |
| `ReplayProtection.PruneKeepsSpent` | rust/perflens-privileged-helper/src/execution.rs:808-853 | A marker goes only at or after the expiry of the request it stands for |
| `ReplayProtection.ExpiryBound` | rust/perflens-privileged-helper/src/lib.rs:727-732 | A request that passes the expiry rule expires after now and within the marker retention |
| `ReplayProtection.ServeKeepsSpent` | rust/perflens-privileged-helper/src/lib.rs:291-320 | Every connection and every restart keeps each executed request either marked or expired |
| `ReplayProtection.FreshPlanRuns` | rust/perflens-privileged-helper/src/execution.rs:103-144 | With room for markers and in the spool an admitted request is executed if and only if it is fresh and its plan has no marker, and then it leaves one |
| `ReplayProtection.ScanPasses` | rust/perflens-privileged-helper/src/execution.rs:808-853 | Without a marker for the plan and below the capacity the scan reaches its end |
| `ReplayProtection.HelperProcess.PruneReplayMarkers` | rust/perflens-privileged-helper/src/execution.rs:808-853 | The in-place loop over the directory listing is the scan of the lemmas, with its early errors |
| `ReplayProtection.HelperProcess.ConsumePlan` | rust/perflens-privileged-helper/src/execution.rs:884-898 | Consuming succeeds exactly when there is no marker, and leaves one |
| `ReplayProtection.HelperProcess.Handle` | rust/perflens-privileged-helper/src/execution.rs:103-144 | One connection: expiry rule, pruning, capacity, exclusive marker, execution |
| `ReplayProtection.HelperProcess.ServeListener` | rust/perflens-privileged-helper/src/lib.rs:291-320 | Over every sequence of visits no request is executed twice |
| `SpoolPublication.CrashPointRecovers` | rust/perflens-privileged-helper/src/execution.rs:688-751 | From a clean spool, a crash at any point of probing, collecting or publishing is recovered from if and only if it does not fall between the change of mode and the change of group of two different groups; recovery then leaves the untouched spool or the complete output with one link, and the spool is accepted; otherwise the temporary file stays and the spool is refused |
| `SpoolPublication.EveryCrashRecoversIfGroupsAgree` | rust/perflens-privileged-helper/src/execution.rs:688-751 | Where the artifact group is the helper's own group every crash state recovers and no earlier name is lost |
| `SpoolPublication.LivesLoseNothing` | rust/perflens-privileged-helper/src/execution.rs:688-751 | However many helpers crash one after the other, each anywhere in its job and each followed by the recovery of the next: every name keeps its file with content, mode, group and links, and the spool stays usable if and only if no crash fell into that window |
| `SpoolPublication.EveryCrashIsCoherent` | rust/perflens-privileged-helper/src/execution.rs:957-1009 | Every state that the helper passes through has link counts that cover the names, so the recovery theorems apply to it |
| `SpoolPublication.RecoverIffAllRecoverable` | rust/perflens-privileged-helper/src/execution.rs:688-751 | On any spool whose link counts cover its names, recovery reaches the end if and only if every temporary file was recoverable at the start, in any order of the listing |
| `SpoolPublication.RecoverKeepsTheRest` | rust/perflens-privileged-helper/src/execution.rs:688-751 | Recovery removes temporary names only, all of them if it reaches the end, and keeps content, mode and group of every other file |
| `SpoolPublication.RecoveryIsIdempotent` | rust/perflens-privileged-helper/src/execution.rs:688-751 | After success a second recovery changes nothing and succeeds |
| `SpoolPublication.TemporariesShareNothing` | rust/perflens-privileged-helper/src/execution.rs:704-738 | No other temporary name can share the file of a recoverable one |
| `SpoolPublication.VerdictsAreIndependent` | rust/perflens-privileged-helper/src/execution.rs:704-738 | Removing one recoverable temporary file leaves the verdict on each other one as it was |
| `SpoolPublication.CrashVerdict` | rust/perflens-privileged-helper/src/execution.rs:704-738 | The temporary file of each phase is recoverable except in the one window |
| `SpoolPublication.SettledIsAccepted` | rust/perflens-privileged-helper/src/execution.rs:774-806 | What recovery should leave passes the validation of spool entries |
| `SpoolPublication.ValidateSpoolEntries` | rust/perflens-privileged-helper/src/execution.rs:774-806 | The spool is accepted if and only if every entry is a safe marker or a safe artifact; count and bytes are those of the artifacts |
| `SpoolPublication.Directory.Collect` | rust/perflens-privileged-helper/src/execution.rs:1019-1027 | Reservation and writing pass only through the collecting or probing phase |
| `SpoolPublication.Directory.Discard` | rust/perflens-privileged-helper/src/execution.rs:1007-1009 | Removing the temporary file settles the spool |
| `SpoolPublication.Directory.Probe` | rust/perflens-privileged-helper/src/execution.rs:1118-1176 | The hardware probe passes only through probing states and leaves the spool as it was, or its private temporary file where the removal fails |
| `SpoolPublication.Directory.Publish` | rust/perflens-privileged-helper/src/execution.rs:921-1017 | Where the output exists nothing is touched; otherwise collection, optional retry and publication pass only through the phases of the crash theorem; success means the complete output and needs every file operation in between to work; a handled error leaves the untouched spool or the complete output, and a failing removal before a retry leaves the temporary file |
| `SpoolPublication.Directory.GiveUp` | rust/perflens-privileged-helper/src/execution.rs:957-986 | A hardware attempt that is given up leaves the spool as it was, or its temporary file where the removal fails, and then the plan ends |
| `SpoolPublication.Directory.CollectAndPublish` | rust/perflens-privileged-helper/src/execution.rs:957-1009 | The same for one collection and its publication |
| `SpoolPublication.Directory.PublishSteps` | rust/perflens-privileged-helper/src/execution.rs:1587-1602 | Mode, group, link, unlink: the states in between are the phases in this order |
| `SpoolPublication.Directory.SetMode` | rust/perflens-privileged-helper/src/execution.rs:1587-1588 | The change of mode leads from collecting to readable |
| `SpoolPublication.Directory.SetGroup` | rust/perflens-privileged-helper/src/execution.rs:1589-1590 | The change of group leads from readable to owned |
| `SpoolPublication.Directory.LinkOutput` | rust/perflens-privileged-helper/src/execution.rs:1594-1594 | The hard link leads from owned to linked |
| `SpoolPublication.Directory.RecoverStaleTemporaryFiles` | rust/perflens-privileged-helper/src/execution.rs:688-751 | The loop over the listing is the recovery of the lemmas, with its early error |
| `EventFallback.ExecutePerf` | rust/perflens-privileged-helper/src/execution.rs:921-1017 | For every behaviour of perf and of the notifier: readiness is announced at most once, never by the probe and always before a success; probe share, used part of an abandoned attempt and final duration add up to exactly the plan's milliseconds, while the configured durations add up to at most the plan's if and only if there is no retry; hardware follows a probe if and only if it was usable, and a probe error that is not the tool's ends the plan; the reason for a fallback is the one that the probe gave; a retry happens if and only if a hardware collection after a probe was failed by the tool with at least 50 ms left; success and error are those of the last attempt |
| `EventFallback.Accounts` | rust/perflens-privileged-helper/src/execution.rs:972-987 | With one collection both accounts come to the plan's duration; with a retry for what is left the charged one still does and the configured one exceeds it |
| `EventFallback.SelectEventSource` | rust/perflens-privileged-helper/src/execution.rs:1029-1086 | The choice leaves the whole plan minus a probe share; after a probe hardware is chosen if and only if the probe was usable, software with its reason if the tool failed it or it saw no counts, and any other probe error ends the plan; a short plan is never probed |
| `EventFallback.ProbeHardware` | rust/perflens-privileged-helper/src/execution.rs:1118-1176 | Usable if and only if the probe ran with counts; a fallback for a failed probe if and only if the error is the tool's, for missing counts if and only if it ran without; any other error is passed on |
| `EventFallback.Collect` | rust/perflens-privileged-helper/src/execution.rs:1311-1603 | A run succeeds exactly when nothing before, in or after the announcement fails and required hardware counts are usable; it announces readiness only if nobody did before, and reports its first error |
| `EventFallback.RetryInSoftware` | rust/perflens-privileged-helper/src/execution.rs:985-1005 | The retry collects software events for the remaining milliseconds and says so |
| `EventFallback.Share` | rust/perflens-privileged-helper/src/execution.rs:1064-1066 | The probe gets the largest share within 250 ms and a quarter of the plan |
| `PerfAcknowledgements.Reader.ReadAcknowledgement` | rust/perflens-privileged-helper/src/execution.rs:1678-1760 | For every chunking a read accepts if and only if the stream's first line is zero or more NULs and "ack\n" within 16 bytes, and then has consumed exactly through that newline; unless a check or a read that the call made went wrong, and then the answer is the first such finding |
| `PerfAcknowledgements.Reader.ReadLine` | rust/perflens-privileged-helper/src/execution.rs:1678-1745 | The loop consumes a prefix of the first line, the whole line unless something failed |
| `PerfAcknowledgements.Reader.Turn` | rust/perflens-privileged-helper/src/execution.rs:1684-1744 | One turn of the loop keeps consumed plus remaining bytes equal to the stream and stops only with the verdict the stream deserves or with the first trouble it met |
| `PerfAcknowledgements.Reader.Await` | rust/perflens-privileged-helper/src/execution.rs:1685-1729 | Checks, read and repeated checks stop only with the trouble just met, or as closed at the end of the stream |
| `PerfAcknowledgements.Reader.Fill` | rust/perflens-privileged-helper/src/execution.rs:1700-1722 | A read of the socket loses and reorders nothing |
| `PerfAcknowledgements.Reader.Advance` | rust/perflens-privileged-helper/src/execution.rs:1723-1740 | The buffered part of the line moves over whole, or the line is longer than the bound |
| `PerfAcknowledgements.Judge` | rust/perflens-privileged-helper/src/execution.rs:1749-1759 | The test by first non-NUL byte accepts exactly the NUL-prefixed acknowledgements |
| `PerfAcknowledgements.FrameVerdict` | rust/perflens-privileged-helper/src/execution.rs:1747-1759 | A perf frame after up to twelve NULs is accepted and leaves its own NUL behind |
| `PerfAcknowledgements.ReadFrames` | rust/perflens-privileged-helper/src/execution.rs:1678-1760 | For every k and every chunking, k concatenated perf frames are accepted by k reads, and one NUL remains |
| `ThreadTracking.Capture.Start` | rust/perflens-trace-helper/src/backend.rs:143-156 | For every interleaving of thread creation, exit, exec and reuse with the setup, when observation starts and at every later moment a live target thread is in the map if and only if its fork did not find the map full and no exec moved it to a number that was gone; and with room for every insertion the setup can come to, it succeeds and misses no fork |
| `ThreadTracking.Capture.FillMap` | rust/perflens-trace-helper/src/backend.rs:143-153 | Fork tracker, scan and insertions: if they succeed, no thread from before the tracker is missing; with room for the forks in between and the threads visible during the scan they do succeed |
| `ThreadTracking.Capture.EnumerateTargetTids` | rust/perflens-trace-helper/src/backend.rs:357-386 | A scan during which threads come and go returns all threads visible throughout and only threads visible at some moment, hence every thread forked before the tracker |
| `ThreadTracking.Capture.AddTargetTids` | rust/perflens-trace-helper/src/backend.rs:150-153 | If no insertion fails, every scanned thread number is in the map, and so is every thread forked before the tracker that still lives |
| `ThreadTracking.ObservationStaysTracked` | rust/perflens-trace-helper/bpf/perflens_sched.bpf.c:126-156 | No later event loses a tracked thread |
| `ThreadTracking.StaysUntilItsExit` | rust/perflens-trace-helper/bpf/perflens_sched.bpf.c:147-156 | A live thread in the map stays there until its own exit or its move to another number by exec |
| `ThreadTracking.RoomMeansComplete` | rust/perflens-trace-helper/bpf/perflens_sched.bpf.c:126-145 | While the map has room for all forks to come, every live target thread is in it but one that an exec has moved |
| `ThreadTracking.ExecGetsOutOfSight` | rust/perflens-trace-helper/bpf/perflens_sched.bpf.c:147-156 | After the observed exit of the leader, whatever the other threads do, a thread that takes over the leader's number by exec is in the map no longer |
| `ThreadTracking.FullMapMissesAThread` | rust/perflens-trace-helper/bpf/perflens_sched.bpf.c:126-145 | A fork misses its thread if and only if the map is full and does not hold the number |
| `ThreadTracking.HappenKeepsSane` | rust/perflens-trace-helper/bpf/perflens_sched.bpf.c:126-156 | Every kernel event keeps the bookkeeping of live, early, dropped and moved threads consistent |
| `SpoolSelection.SelectSnapshots` | src/perflens/admin/spool.py:714-745 | The selection is the longest oldest-first run of candidates within both limits, and the count is that of all candidates |
| `SpoolSelection.CandidatesAreTheEligible` | src/perflens/admin/spool.py:722-735 | The candidates are, in age order, exactly the files not newer than the cutoff that have at least keep_latest newer files |
| `SpoolSelection.KeptHasEnoughNewer` | src/perflens/admin/spool.py:723-731 | Dropping the head of the newest-first order keeps exactly the files with enough newer ones |
| `SpoolSelection.SortSorts` | src/perflens/admin/spool.py:723-736 | Files with different names are put into strict age order |
| `SpoolSelection.SortKeepsElements` | src/perflens/admin/spool.py:723-736 | Sorting neither drops nor invents files |
| `SpoolArchive.BuiltManifestIsConsistent` | src/perflens/admin/spool.py:881-914 | Every manifest built from captures of a limited selection passes the consistency rules of the same policy |
| `SpoolArchive.IsConsistent` | src/perflens/admin/spool.py:1258-1294 | The check accepts exactly the consistent manifests |
| `SpoolArchive.DistinctIffAsMany` | src/perflens/admin/spool.py:1282-1283 | Comparing the number of names with the number of different names detects exactly the repeated ones |
| `SpoolArchive.VerifyArchive` | src/perflens/admin/spool.py:1031-1175 | An archive verifies if and only if its manifest is consistent and its members are exactly the manifest's artifacts, each once, with the right size and digest |
| `SpoolPruning.Spool.CaptureEntry` | src/perflens/admin/spool.py:748-828 | A snapshot is captured exactly when the file is as it says at the open and has its size and time after the read, in every schedule of changes by others; the entry has the digest of the bytes read; nothing is removed |
| `SpoolPruning.Spool.ReadHeld` | src/perflens/admin/spool.py:780-828 | The copy of the open file and the second look at it, with the changes of others in between |
| `SpoolPruning.Spool.VerifySource` | src/perflens/admin/spool.py:1312-1355 | A source verifies exactly when it is the entry's file at the look, the capture succeeds and the digest is the entry's, in every schedule; nothing is removed |
| `SpoolPruning.Spool.WriteArchive` | src/perflens/admin/spool.py:917-1014 | An archive written from a selection is faithful: it will verify; undisturbed, it is written if and only if every selected file is still as selected; in every schedule the spool changes by what others do and nothing else |
| `SpoolPruning.Spool.ArchiveOldest` | src/perflens/admin/spool.py:148-225 | Whatever happens to the spool meanwhile, an archive that is written verifies and holds only old files that are not among the newest, and nothing is removed |
| `SpoolPruning.Spool.Survey` | src/perflens/admin/spool.py:342-354 | Present and absent entries add up to the manifest, and the survey removes nothing |
| `SpoolPruning.Spool.PruneEntry` | src/perflens/admin/spool.py:399-420 | In every schedule: the removal goes through exactly when the verification, the last look and the unlink do, takes exactly the file that then has the name, and that file matches its entry unless something touched it since it was read |
| `SpoolPruning.Spool.RemoveVerified` | src/perflens/admin/spool.py:406-420 | The last look compares the number alone; the unlink takes whatever file has the name then |
| `SpoolPruning.Spool.Unlink` | src/perflens/admin/spool.py:418-420 | The one step that removes a name: allowed only after a read that verified the entry, and logged with the file that goes and whether anything touched it |
| `SpoolPruning.Spool.RemovePresent` | src/perflens/admin/spool.py:397-437 | On success exactly one removal per present entry, each right after a read that verified it; undisturbed, exactly their names go |
| `SpoolPruning.Spool.PruneVerified` | src/perflens/admin/spool.py:341-463 | Removed plus absent is the manifest count; nothing is removed in a dry run or without authorization; an undisturbed prune removes all entries' names or, if one source differs, nothing |
| `SpoolPruning.Spool.Prune` | src/perflens/admin/spool.py:302-463 | Nothing is removed without a faithful archive and the authorization; in every schedule each removal comes within three steps of a read that verified the entry, the spool changes only by what others do and by those removals, and every removal that nothing touched is of content the archive holds; removed plus already absent is the manifest count |
| `SpoolPruning.ArchiveThenPrune` | src/perflens/admin/spool.py:67-463 | Archiving and then pruning an undisturbed spool removes exactly the archived names, changes nothing else, and the archive holds the content of each of them |
| `SpoolFiles.LateEvent` | src/perflens/admin/spool.py:399-420 | For an intact entry and any one change by another process after the content was read: the removal goes through unless the change takes the name away, gives it to another file before the last look, or changes size or time before the second look; and the file that is removed matches the entry if and only if the change did not touch it or put the same bytes, size and time back |
| `SpoolPruning.NothingIsLost` | src/perflens/admin/spool.py:67-463 | Over every history of the spool, a content that was in it is in it still or in an archive, unless other processes took out its last copy or changed a file between its read and its removal |
| `SpoolPruning.UnlinkTakesItsFile` | src/perflens/admin/spool.py:418-420 | A removal takes no content but that of the file it logs |
| `SpoolPruning.RunCommand` | src/perflens/admin/spool.py:67-463 | Only a prune command removes anything, and what it removes undisturbed is in the archive it was given |
| `SpoolPruning.RunCommands` | src/perflens/admin/spool.py:67-463 | Any sequence of archive, verify and prune commands, with anything in between, loses no content: it is in the spool or in one of the archives that were pruned against, with those two exceptions |
| `ContentBytes.ConvergesInFourRounds` | src/perflens/application/analyze_runtime_locks.py:381-400 | For every base length the stated length agrees with itself from the fourth round on |
| `ContentBytes.FourRoundsCanBeNeeded` | src/perflens/application/analyze_runtime_locks.py:381-400 | Three rounds are not enough for base 98, and base 8 has two self-consistent lengths |
| `ContentBytes.StatedStaysBelow` | src/perflens/application/analyze_runtime_locks.py:381-400 | The loop never passes a self-consistent length |
| `ContentBytes.IdentifyAnalysis` | src/perflens/application/analyze_runtime_locks.py:364-411 | The artifact is returned if and only if its least self-consistent length is within the output limit, and then states its real length; at most four of the eight rounds are used; a longer artifact is refused by the artifact's own contract and never by the loop's budget error |

## Left out

Assumptions under which some members are stated:

- ProbeExactness.TableIsExact: assumes that threads unlock and wait only with locks they own, that a thread does not hold one rwlock for reading and writing at once, that lock calls do not return EOWNERDEAD and that waits return 0 or ETIMEDOUT; the exact conditions on results are members of their own.
- ProbeLedger.StreamIsALedger: is stated for threads that have not ended, because a thread that ends takes its table with it and a later thread may get its number.
- SupervisorSignals.SignalOneHitsItsTarget: assumes that no two processes share pid and start time; `SupervisorSignals.SameTickReuseMisleads` shows why.
- SupervisorLifecycle.Supervise: that kills by number reach the leader and that it ends reaped is stated for a kernel that keeps exited children, because one that does not frees the number; `SupervisorLifecycle.AutoReapMisleads` shows that.
- SupervisorLifecycle.TeardownTree: its success does not say which of the leader's descendants are left, because it may also end at its deadline; what one scan and its signals reach is stated by `SupervisorSignals.SignalSupervisedTree`.
- ProcessTree.ExcludedStayOut: takes the acyclic parent relation as a requirement; a snapshot that is read entry by entry need not have one.
- ThreadTracking.Capture.EnumerateTargetTids: assumes that the directory scan returns every thread that is visible throughout.
- SpoolPruning.Spool.CaptureEntry: reads the open file in one step; a file that changes between two chunks of one read is not modelled.
- SpoolPruning.RunCommands: names two ways in which a content can go, both changes by other processes; for one late change `SpoolFiles.LateEvent` says exactly when it happens.
- PerfAcknowledgements.Reader.ReadAcknowledgement: folds the checks of the child and of the deadline into one stream of findings.
- ReplayProtection.HelperProcess.ServeListener: is stated for histories without lag; what a lag does is stated by `ReplayProtection.AtMostOnceIffMarkersDoNotLag` and `ReplayProtection.RunsOnceIffMarkerOutlivesIt`.
- ThreadTracking.Capture.Start: excepts threads that an exec moves to another number, because no handler runs for that; `ThreadTracking.ExecGetsOutOfSight` shows that they are missed.

Abstractions:

- System calls are atomic steps with stated effects; fork, execve, signalfd, libbpf, dlsym and the container runtime are not modelled, and neither are sync calls, short of the failures that `SpoolPublication.Directory.Publish` lets them have.
- The keyed hash of lock addresses and SHA-256 are taken to be injective; their internals are not modelled.
- In the run theorems a line of the probe's stream is a record, and an overflow of the line builder counts as a failed write; the hexadecimal writer and the fixed texts of a line are not modelled.
- A forked child of a probed process, raw clones that share memory, and locks held before the probe is loaded are not modelled.
- The probe's other environment checks; the run theorems hold for every setting.
- JSON, schema and field validation of plans, targets, modes and privileges, and the container identity checks: each is a conjunction of comparisons.
- Ownership, type and path checks of directories, executables, sockets and archive files are left out or appear as one flag.
- The monitored-file variants of the evidence boundary.
- The perf process itself: `EventFallback` takes its errors, its usable counts and its duration as inputs; signals, grace periods and the parsing of its output are not modelled.
- Creation time, version, age and retention numbers of an archive manifest are not part of the model, because no check relates them to the entries.
- The filtering, sorting and renumbering of kernel events after a capture, and the fields of an event: library sorting and a case table.
- Stale thread numbers that a capture inserts after their thread has exited: they are not claimed to be absent.
- The aggregation of runtime locks, hot spots and profiles, the command-line interface and the packaging.
- Progress and wall-clock liveness; deadlines only bound loops.
