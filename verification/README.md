# Verification of the Modality probe tracing backend

This project models the FreeRTOS tracing backend of the Modality probe
(`source/modality_probe_trace.c` and the hook macros that drive it) and proves
what it promises over whole runs. It also covers the probe id hash, the
16-bit packing of task numbers, the loop of the IO task, the mock scheduler of
the repository's tests, and the random number generator of its example.

`dafny verify dfyconfig.toml` checks everything.

## How it is put together

- `Trace` is the abstract machine: the backend's globals and fixed arrays, the
  kernel's task numbers, and the probe library known by a contract only
  (recording appends to a log and to a causal past, a snapshot copies the past,
  a merge adds one, and any call may fail and then changes nothing). `Step` is
  one call of an entry point or hook, `Run` a whole run, and `Legal` says what
  the kernel may do: handles are used once, and the running task changes by a
  switch out and then a switch in, with no hook between them. Array sizes,
  storage sizes and all other configured constants are parameters.
- `Tracer.Backend` is the backend as it is written: fields and arrays updated
  in place, first-fit loops, early returns out of critical sections. Each of
  its methods is proved equal to the step of the same name, so that what is
  proved about runs holds of it. `Balanced` says what each does to the port's
  critical section, for a port that counts and for one that saves and restores;
  every call into the probe library requires that one has been entered
  (`Exclusive`).
- `Registration`, `Failures` and `Delivery` say what single calls come to, with
  every outcome and every error written out, so that the abstract machine is
  held against something other than itself.
- `Registry`, `Latch`, `Attribution`, `Causality`, `Logs`, `Invisibility`,
  `Decisions`, `Arena`, `Overflow`, `Quiescence` and `ControlPlane` hold the
  theorems over every legal run. An invariant is stated once (`RegistryInv`,
  `AttributionInv`, `HistoryInv`, `LogsInv`, `ArenaInv`), shown to be kept by
  every step, and then used.
- `Driver` runs the class through any sequence of steps, so that its runs and
  those of the abstract machine are the same.
- `Scheduler` has the mock scheduler's nested loops, and `RunCounts` what a
  schedule of any size logs and merges.
- `IoTask` has the IO task's loop with its 16-bit counter, and `Visits` what its
  visits to the probes come to while other tasks run.
- `ProbeIdHash` has the hash loop, `PolynomialDivision` the definition it is
  proved against, and `ErrorDetection` (with `PowersOfX`) which changes to a
  name always change its id; `Port` has the packing of two halves in a word.
- `Rand` has the generator.

## What the proofs found

- Static storage is handed out correctly for every number of requests if and
  only if the first request past the end of the array does not overflow
  `size_t` (`Arena.AllocatorCorrectIffNoWrap`). With overflow the first request
  that does not fit is granted, and some run leaves a traced task with storage
  outside the array (`Overflow.StorageSafeIffNoWrap`).
- A task whose name hashes to 0 is never traced. While the exclusion list has a
  free entry it counts as excluded, because a free entry holds 0; once the list
  is full it is not, and it uses up a storage region all the same
  (`Arena.CapacityDecides`).
- The line that enables tracing runs whatever went wrong before it in
  `vTraceEnable`, so tracing may be on with an error recorded;
  `Quiescence.EnableOutcome` says exactly when, and `EnabledWithErrorAtStart`
  when the first call does it. The IO task is untraced because it is created
  before that line, whether or not its exclusion succeeded
  (`Registry.IoTaskIsNeverTraced`).
- A control message longer than a task's own buffer is never received and never
  dropped, so that nothing behind it is received either
  (`ControlPlane.BlockedForEver`). In any reachable state a task's buffer is
  blocked, or can become so, if and only if the task's own buffer is smaller than
  the IO task's read buffer and smaller than the longest message its message
  buffer takes (`ControlPlane.BlockableIffMessagesDoNotFit`).
- A name whose length is a multiple of 256 is treated as empty, because the
  length is passed as a `uint8_t` (`ProbeIdHash.HashedLength`).
- Names of equal length that differ in at most three bits, or only within 16
  consecutive bits, never share an id; with four bits they may
  (`ErrorDetection`).
- For a period of 65535 iterations or more the IO task never announces
  mutators, because its counter has 16 bits (`IoTask.IoLoop`).

## Model

| member | source | states |
|---|---|---|
| Causality.CausalCompleteness | source/modality_probe_trace.c:353-474 | Whenever a traced task runs with tracing on and no error, its probe's causal past is exactly the set of events logged so far for the tasks that have been switched in |
| Causality.ReachableHistory | source/include/modality_probe_freertos.h:110-127 | In every reachable state of tracing without interruption: merges follow the chain of traced tasks, each probe knows all its own events, the last traced task knows everything, and its stored snapshot does too once it is switched out |
| Causality.MergesAreHandOvers | source/modality_probe_trace.c:379-407 | The merges of a run are exactly the hand-overs of its chain of traced tasks, in order, each into the next task from its predecessor's snapshot, and never of a task with itself |
| Causality.MergeTakesAll | source/modality_probe_trace.c:379-407 | A switch in merges the snapshot of the previous traced task, which holds all that task's probe knows at that moment |
| Attribution.ReachableAttribution | source/modality_probe_trace.c:462-474 | In every reachable state the current and previous task are the last two different traced tasks switched in, and a running task whose filter passes is the current one |
| Logs.LogIsProjection | source/modality_probe_trace.c:409-459 | With tracing on since the scheduler started and no error, the log of each traced task is exactly the sequence of that task's own events in the run |
| Logs.HooksWriteOwnLog | source/include/modality_probe_freertos.h:96-209 | In every reachable state, errors or not, a hook for a task writes to no log but that task's own, though the gate and the write use different variables |
| Failures.HooksAreExact | source/modality_probe_trace.c:353-474 | For every hook in every legal run, earlier errors or not: whether it acts; which assertion in it fails first, and that it then leaves tracing off with that error, one section open, the slots as they were and nothing logged (or, if only the snapshot failed, the event); otherwise the one event it logs, what it merges and adds to the causal past, and the snapshot it stores |
| Invisibility.ExcludedTasksAreInvisible | source/modality_probe_trace.c:311-325 | Erasing every step of excluded tasks from a run leaves the same slots, snapshots, storage index, current and previous task, probes, merges, errors and critical sections |
| Invisibility.ErasedIsLegal | source/include/modality_probe_freertos.h:82-127 | The erased sequence of steps is itself a legal run, of a kernel without the erased tasks |
| Invisibility.MergesJoinNeighbours | source/modality_probe_trace.c:462-474 | The merges of a run join adjacent, different tasks of the erased run, none of them excluded |
| Registry.ReachableRegistry | source/modality_probe_trace.c:301-351 | In every reachable state occupied slots are a gap-free prefix in registration order with different tasks; each one's task number, probe and name agree on the id; free slots are blank; the two control plane buffers of a slot are both there or both missing; and without error a task passes the filter only if it has a slot |
| Registry.RegisterEffect | source/modality_probe_trace.c:529-578 | All that a registration can come to: the task is left untraced, or has a probe but no slot, which is an error, or has the next probe in the first free slot |
| Registration.RegistrationIsExact | source/modality_probe_trace.c:301-351 | For every registration while tracing is on, whatever may fail in it: which probe with which id, storage and log, which slot with which snapshot and buffers, and which filter and id there are afterwards; which error comes first and is recorded; and whether a section is left open |
| Registry.IoTaskIsNeverTraced | source/modality_probe_trace.c:91-126 | In every reachable state, whatever errors there are and however often tracing is enabled, the IO task has no slot and its filter passes at no hook |
| Port.WriteKeepsOtherHalf | source/include/modality_probe_port.h:35-38 | Each half of a task number is read back as written and survives a write of the other half |
| Port.HalvesDetermineWord | source/include/modality_probe_port.h:35-38 | The two halves are the whole word |
| Decisions.ListImplementsSet | source/modality_probe_trace.c:146-173 | In error-free runs the zero-terminated exclusion array holds, apart from 0, exactly the set of ids excluded so far |
| Decisions.ListHoldsFirstIds | source/modality_probe_trace.c:146-173 | In every reachable state, errors or not, the exclusion array holds the ids excluded first, in order, as many as it has room for, and after them zeros; the id 0 takes up no entry |
| Decisions.ExclusionIsExact | source/modality_probe_trace.c:146-173 | In every legal run excluding a task fails, and disables tracing, exactly when the name counts as empty or as many ids other than 0 have been excluded as there are entries; nothing but the array changes |
| Decisions.TableRefinesSet | source/modality_probe_trace.c:311-325 | In error-free runs the occupied slots are, in order, exactly the tasks created while tracing was on with an id that is not 0 and not in the set of excluded ids |
| Overflow.StorageSafeIffNoWrap | source/modality_probe_trace.c:486-501 | The storage of traced tasks lies inside the array in every run if and only if the index cannot wrap |
| Overflow.OverflowingRun | source/modality_probe_trace.c:486-527 | If it can, a run in which the storage of a traced task lies outside the array |
| Decisions.ZeroIdIsNeverTraced | source/modality_probe_trace.c:503-527 | A task whose name hashes to 0 gets neither slot nor probe, whatever the list holds and whatever has gone wrong |
| Decisions.OwnHashGivesZeroId | source/modality_probe_trace.c:614-631 | Every name of 1 to 253 bytes followed by its own hash, high byte first, has the id 0 |
| Arena.AllocatorCorrectIffNoWrap | source/modality_probe_trace.c:486-501 | Request number k is granted, and then gets region k, exactly when k regions fit, for all k, if and only if the index cannot wrap |
| Arena.WrapGrantsTooMuch | source/modality_probe_trace.c:486-501 | If the index can wrap, the first request past the end of the array is granted |
| Arena.StorageIsDisjoint | source/modality_probe_trace.c:486-527 | In every reachable state the regions of traced tasks lie inside the array and do not overlap, and there are no more traced tasks than slots or than regions that fit |
| Arena.IndexCountsRequests | source/modality_probe_trace.c:491-495 | While no error is recorded the next index is the size of a probe times the number of registrations that asked for storage |
| Arena.CapacityDecides | source/modality_probe_trace.c:503-551 | When nothing but capacity can fail, the next creation to be traced succeeds exactly when its region fits and a slot is free; the first one past either limit records that limit's error and disables tracing |
| Quiescence.FirstErrorIsNeverReplaced | source/modality_probe_trace.c:260-269 | Once an error is recorded it is the recorded error after any continuation of the run |
| Quiescence.QuietUntilEnabled | source/modality_probe_trace.c:301-459 | From when tracing is off until it is enabled again no step changes a log, a causal past, a slot, a snapshot, a task number, the storage index, the merges or a critical section |
| Quiescence.QuietForEver | source/modality_probe_trace.c:78-87 | Once the scheduler has started, tracing that is off stays off and nothing of that changes in any continuation, attempts to enable it included |
| Quiescence.QuietAfterDisable | source/modality_probe_trace.c:131-134 | The same holds from `vTraceDisable` until tracing is enabled again |
| Quiescence.QuietAfterError | source/modality_probe_trace.c:260-269 | The same holds after any step, other than enabling, in which an error is raised, whether it is the first or not |
| Quiescence.EnableOutcome | source/modality_probe_trace.c:74-129 | Whether enabling ends with tracing on, which error it records, whose handle it keeps and what else it leaves alone, in every case; in particular when it ends enabled with an error, and that it does nothing while tracing is on |
| Quiescence.EnabledWithErrorAtStart | source/modality_probe_trace.c:91-126 | A first call ends enabled with an error exactly when an IO task is configured and its name is empty, no task can be excluded, or it cannot be created |
| Quiescence.SectionsBalance | source/include/modality_probe_trace.h:110-117 | Without an error no critical section is left open, and at most one is for every time tracing was enabled |
| ControlPlane.BuffersAreQueues | source/modality_probe_trace.c:211-256 | In every reachable state each task's buffer and probe hold what that task's own first-in first-out queue holds |
| ControlPlane.MessagesAreConserved | source/modality_probe_trace.c:649-700 | The messages a task's probe was handed, followed by those still buffered, are exactly the messages addressed to it that found room, in order, none lost, added or repeated |
| ControlPlane.NoBuffersNoEffect | source/modality_probe_trace.c:192-256 | With no task running, or for a task without buffers, there is no buffer to get and processing does nothing, although a search for NULL finds a free slot |
| Delivery.NewTaskHasBuffers | source/modality_probe_trace.c:552-577 | In every legal run a task traced by its creation has buffers, and they are empty, exactly when the control plane is there and both could be had; if one could not, tracing is off and, if no error was recorded before, that allocation's is |
| Delivery.GetsOwnBuffer | source/modality_probe_trace.c:192-209 | In every legal run a task that has buffers is given its own, with the messages waiting in it |
| Delivery.DeliveryIsExact | source/modality_probe_trace.c:668-684 | In every legal run a message that was read is added to a task's buffer exactly when it is not empty, is for every probe or for the hash of the task's name, and fits together with those waiting; otherwise the buffer is as it was |
| Delivery.RoomIsFit | source/modality_probe_trace.c:678-684 | A message buffer takes one more message exactly as long as the sizes of all of them, each with its length prefix, do not exceed its own |
| Delivery.ProcessingIsExact | source/modality_probe_trace.c:234-255 | In every legal run processing takes the oldest message if it fits the task's own buffer, hands it to the task's probe, and records an error and disables tracing exactly when the probe refuses it |
| ControlPlane.ProcessingStuckIffBlocked | source/modality_probe_trace.c:234-255 | In every reachable state processing by a task with buffers changes nothing at all exactly when its buffer is empty or its oldest message is longer than its own buffer |
| ControlPlane.BlockedForEver | source/modality_probe_trace.c:234-241 | A task whose oldest message is too long is handed nothing more, however the run continues |
| ControlPlane.NeverBlocked | source/modality_probe_trace.c:651-680 | If what the IO task can read, or what a message buffer takes, fits the task's own buffer, no buffer is blocked in any run |
| ControlPlane.OneMessageBlocks | source/modality_probe_trace.c:651-680 | Otherwise one more message read by the IO task blocks an empty buffer, in a run that is legal |
| ControlPlane.BlockableIffMessagesDoNotFit | source/modality_probe_trace.c:234-241 | Whether the buffer of a task, whatever it holds, is blocked in some continuation of the run depends on those sizes alone |
| ProbeIdHash.HashLoop | source/modality_probe_trace.c:614-631 | The loop, with its shifts and its truncations as in C, computes the hash of the first `length` bytes |
| ProbeIdHash.LengthWraps | source/modality_probe_trace.c:614-631 | The last 256 bytes of a longer name count for nothing, because the length is a `uint8_t` |
| ProbeIdHash.ByteStepIsEightBitSteps | source/modality_probe_trace.c:625-627 | One pass of the loop equals eight steps of shifting and conditionally adding the generator |
| ProbeIdHash.NoCollisionInWindow | source/modality_probe_trace.c:614-631 | Strings of equal length that differ, and differ only in two adjacent bytes, hash differently |
| ProbeIdHash.IdsDiffer | source/modality_probe_trace.c:614-631 | Tasks with names like that have different ids |
| ProbeIdHash.Residue | source/modality_probe_trace.c:614-631 | A string followed by its own hash, high byte first, hashes to 0 |
| PolynomialDivision.HashIsRemainder | source/modality_probe_trace.c:613-631 | The hash is the remainder, and the only one, of dividing the message, with all ones added to its first 16 bits and 16 zero bits appended, by x^16 + x^12 + x^5 + 1 over GF(2) |
| PolynomialDivision.HashParity | source/modality_probe_trace.c:613-631 | The hash has an odd number of one bits exactly when the string has |
| ErrorDetection.CollisionIffDivides | source/modality_probe_trace.c:613-631 | Two strings of equal length have the same hash exactly when the generator divides the polynomial of the bits in which they differ |
| ErrorDetection.NoCollisionInBurst | source/modality_probe_trace.c:613-631 | Strings of equal length that differ, and differ only within 16 consecutive bits at any bit offset, hash differently |
| ErrorDetection.NoCollisionUpToThreeBits | source/modality_probe_trace.c:613-631 | Names of 1 to 255 bytes and of equal length that differ in one, two or three bits have different ids |
| ErrorDetection.FourBitsMayCollide | source/modality_probe_trace.c:613-631 | Three bits is the most: two names that differ in four have the same id |
| Tracer.Backend.PrvTraceRegisterTaskProbe | source/modality_probe_trace.c:301-351 | In place, the registration of the abstract machine, with critical sections balanced unless the creation event fails |
| Tracer.Backend.AddProbe | source/modality_probe_trace.c:529-578 | In place, the first free slot is filled with the task, its probe, a snapshot and, if both can be had, its buffers |
| Tracer.Backend.VTraceEnable | source/modality_probe_trace.c:74-129 | In place, enabling of the abstract machine, through the nested exclusion and create hook, with the critical section restored |
| Tracer.Backend.VTraceExcludeTask | source/modality_probe_trace.c:146-173 | In place, the id goes to the first free entry, or an error is recorded |
| Tracer.Backend.GetTcbProbe | source/modality_probe_trace.c:580-595 | The loop finds the first slot of a task, if there is one |
| Tracer.Backend.IsTaskExcluded | source/modality_probe_trace.c:597-612 | The loop finds whether an id is in the array |
| Tracer.Backend.PrvTraceLogEvent | source/modality_probe_trace.c:409-459 | In place, logging of the abstract machine; a section is left open only with an error recorded |
| Tracer.Backend.PrvTraceProduceSnapshot | source/modality_probe_trace.c:353-377 | In place, the current task's slot gets a snapshot of its probe |
| Tracer.Backend.PrvTraceMergeSnapshot | source/modality_probe_trace.c:379-407 | In place, the current task's probe is merged with the previous task's stored snapshot |
| Tracer.Backend.TraceTaskSwitchedIn | source/include/modality_probe_freertos.h:110-119 | The hook is one switch-in step of the abstract machine |
| Tracer.Backend.TraceTaskSwitchedOut | source/include/modality_probe_freertos.h:121-127 | The hook is one switch-out step of the abstract machine |
| Tracer.Backend.TraceHook | source/include/modality_probe_freertos.h:89-108 | Every other hook is the gate and then one event |
| Tracer.Backend.VTraceProcessControlPlaneMessages | source/modality_probe_trace.c:211-256 | In place, the task's oldest message goes from its buffer to its probe |
| Tracer.Backend.TraceGetControlPlaneBuffer | source/modality_probe_trace.c:192-209 | In place, the buffer in the task's slot, if there is one, with the critical section restored |
| Tracer.Backend.RouteMessage | source/modality_probe_trace.c:649-700 | The routing loop appends the message to the buffer of every task it is addressed to that has room |
| Driver.Perform | source/include/modality_probe_freertos.h:82-127 | Every entry point and hook in place is the step of the abstract machine, and leaves the port as it was unless it leaves a critical section open |
| Driver.RunBackend | source/modality_probe_trace.c:32-48 | From start-up, any sequence of steps leaves the class in the state of the abstract run, and a legal one without error leaves the critical section as it began |
| Scheduler.StartScheduler | test/tests/common/mock_freertos.c:211-252 | The nested loops are the run of the schedule, and leave the critical section as they found it if tracing is still on |
| Scheduler.OnlyTaskFunctionsAreCalled | test/tests/common/mock_freertos.c:228-247 | Every hook in a schedule, of any size, is one that the function of a task in use runs, and not that of the IO task, going by as much of the name as the kernel keeps |
| RunCounts.LogAfterSchedule | test/tests/common/mock_freertos.c:211-252 | After any number of rounds over any table of tasks there is no error, and each traced task's log is its creation and then, once a round, its switch in, the events of its function as often as it is called (the IO task's never), and its switch out |
| RunCounts.SwitchesOfSchedule | test/tests/common/mock_freertos.c:211-252 | Each traced task is logged as switched in, and as switched out, exactly once a round |
| RunCounts.MergesOfSchedule | test/tests/common/mock_freertos.c:211-252 | With n traced tasks, two or more, in R rounds there are exactly n * R - 1 merges (none if R is 0), each from the traced task before it in creation order; with fewer there are none |
| RunCounts.StartTracedScheduler | test/tests/common/mock_freertos.c:211-252 | The scheduler's loops on a backend that came up without error leave it enabled, without error and with its critical section as it was, with exactly those logs and merges |
| IoTask.IoLoop | source/modality_probe_trace.c:634-716 | In each iteration a failed read disables tracing with its error, and a message that was read reaches exactly the tasks it is for that have room; then, if no other task runs, exactly the probes in the table are visited, in order, for a report, and for an announcement in exactly the iterations that are due, and the errors of the visits that fail are raised, in order; with other tasks running before any slot is looked at or in the delay it is the run of the steps of both |
| IoTask.UndisturbedVisit | source/modality_probe_trace.c:175-189 | If no other task runs meanwhile, a call of the iterator visits exactly the probes there are, in order, whichever visits fail, and raises the errors of those that do and changes nothing else |
| Visits.InterferedVisit | source/modality_probe_trace.c:175-189 | In every legal run, whatever other tasks do meanwhile, a call of the iterator visits every probe that was there when it started, and then perhaps new ones: none twice, in the order they were made, and all of them in the table |
| IoTask.CounterNext | source/modality_probe_trace.c:705-714 | The 16-bit counter is above the period exactly when announcements are due, and does not wrap if the period is below 65535 |
| IoTask.AnnouncementAt | source/modality_probe_trace.c:705-714 | For a period N below 65535, iteration i announces if and only if i > 0 and i is a multiple of N + 1; for any other, never |
| Rand.Generator.UxRand | examples/m3-qemu/main.c:259-267 | Call number n since the last seeding returns the n-th number of that seed's sequence |
| Rand.Generator.PrvSRand | examples/m3-qemu/main.c:270-274 | Seeding starts the seed's sequence anew |
| Rand.FirstNumbers | examples/m3-qemu/main.c:259-267 | The numbers first drawn from the seed 1 |
| Rand.StatesRepeat | examples/m3-qemu/main.c:259-267 | From every seed the states after i and j calls are the same exactly when 2^32 divides j - i |
| Rand.EveryStateReached | examples/m3-qemu/main.c:259-267 | From every seed every 32-bit state is reached within 2^32 calls |
| Rand.OutputPeriod | examples/m3-qemu/main.c:259-267 | From every seed the numbers returned repeat after p calls exactly when 2^31 divides p |
| Rand.OutputsUniform | examples/m3-qemu/main.c:259-267 | Over 2^32 calls from any seed each 15-bit number is returned exactly 2^17 times |

## Left out

- TRACE_ASSERT compiled out: the model is of builds in which a failed assertion records an error and returns.
- Reuse of a task handle after deletion: the registry has no delete hook, so a run in which a handle is created twice is not legal.
- Hooks between a switch out and the next switch in: the kernel is taken to run none.
- The choice of event id and payload in the queue hooks (`modality_probe_freertos.h:129-330`): a finite table; `Hook` takes the chosen event. Queue hooks that choose no event, as for a mutex given from an interrupt, are not steps.
- The probe library: known by its contract only. Events are named by the probe that logged them and not by its id, so two probes with the same id stay apart.
- Contents of reports and announcements, what TRACE_IO_WRITE sends, and the conversion of a message's bytes to its destination: `Deliver` and `IoTask.Read` carry the destination, and `IoFailure` an error of the transport. TRACE_IO_READ is taken to return no more than its buffer holds.
- Message buffers: a bounded first-in first-out queue that takes a whole message or nothing, and does not hand out a message longer than the receiver's buffer.
- ControlPlane.MessagesAreConserved: a task may also take its message buffer from `pvTraceGetControlPlaneBuffer` and receive from it by itself, as the repository's README.md:440 allows. This, `BlockedForEver` and the other results on control messages are about tasks that only call `vTraceProcessControlPlaneMessages`.
- IoTask.IoLoop: no other task's step comes between a read and the end of the routing of its message, nor within one visit to a probe.
- The kernel's task numbers are 32-bit words, as on the supported ports; the example's generator likewise has a 32-bit state.
- Task functions in the mock scheduler run hooks only: they create no tasks and process no control messages.
- The mock queues, one octet each: their hooks are steps like those of any queue. The names the mock and the real kernel store, cut to a maximal length, are those that `Create` and `Tcb` carry.
- The application tag, the user-level event macros, debug printing, delays, stacks, and freeing of memory.
- The error messages are constructors of `Error`; their texts are not modelled.
- Without static allocation a probe's storage comes from TRACE_MALLOC, of which only success or failure is modelled.
- Arena.CapacityDecides: is about creations in which every call but the two allocations of capacity succeeds, because otherwise that call's error comes first.
