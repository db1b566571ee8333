/** The hooks, exactly: when one fails and with which error, and what it does when it does not. */
module Failures {
  import opened Attribution
  import opened Causality
  import opened Logs
  import opened Options
  import opened Registry
  import opened Runs
  import opened Sequences
  import opened Trace

  predicate IsHook(op: Op) {
    op.SwitchedIn? || op.SwitchedOut? || op.Hook?
  }

  /** The event a hook logs. */
  function EventOf(op: Op): Event
    requires IsHook(op)
  {
    match op
    case SwitchedIn(_, priority, _, _) => Event(TASK_SWITCHED_IN, Some(priority))
    case SwitchedOut(_, _, _) => Event(TASK_SWITCHED_OUT, None)
    case Hook(_, e, _) => e
  }

  /** The hook gets as far as calling the probe library: tracing is on, the filter passes, and a task is known. */
  ghost predicate Acts(s: State, op: Op)
    requires IsHook(op)
  {
    s.enabled && Gate(s, op.task) && (op.SwitchedIn? || s.current != NULL)
  }

  /** The hook merges: another traced task was switched in before. */
  ghost predicate Merges(s: State, op: Op) {
    op.SwitchedIn? && s.current != NULL && s.current != op.task
  }

  /** The assertion that fails in a hook that acts. */
  ghost function Failure(s: State, op: Op): Option<Error>
    requires IsHook(op)
  {
    if !Traced(s, op.task) then Some(NoCurrentProbe)
    else if Merges(s, op) && !Traced(s, s.current) then Some(NoPreviousProbe)
    else if Merges(s, op) && !op.mergeOk then Some(MergeFailed)
    else if !op.recordOk then Some(LogFailed)
    else if op.SwitchedOut? && !op.snapshotOk then Some(SnapshotFailed)
    else None
  }

  /** An assertion has failed: one error has been raised, tracing is off, and one critical section is left open. */
  ghost predicate Failed(s: State, t: State, e: Error) {
    && !t.enabled && t.error == (if s.error.Some? then s.error else Some(e))
    && t.raises == s.raises + 1 && t.unclosed == s.unclosed + 1
  }

  ghost predicate NothingFailed(s: State, t: State) {
    t.enabled == s.enabled && t.error == s.error && t.raises == s.raises && t.unclosed == s.unclosed
  }

  // ----- The three calls -----

  lemma LogOutcome(s: State, e: Event, ok: bool)
    requires s.enabled && s.current != NULL
    ensures var t := LogEvent(s, e, ok);
            && t.slots == s.slots && t.merges == s.merges && t.current == s.current && t.numbers == s.numbers
            && (if Traced(s, s.current) && ok then NothingFailed(s, t)
                else Failed(s, t, if !Traced(s, s.current) then NoCurrentProbe else LogFailed) && t.probes == s.probes)
  {
    hide FindSlot;
  }

  lemma ProduceOutcome(s: State, ok: bool)
    requires s.enabled && s.current != NULL && Traced(s, s.current)
    ensures var t := ProduceSnapshot(s, ok);
            && t.probes == s.probes && t.merges == s.merges
            && (if ok then
                  && NothingFailed(s, t) && Traced(t, s.current)
                  && SlotOf(t, s.current) == SlotOf(s, s.current).(snapshot := Produce(s, SlotOf(s, s.current).probe))
                else Failed(s, t, SnapshotFailed) && t.slots == s.slots)
  {
    var t := ProduceSnapshot(s, ok);
    hide FindSlotFrom;
    SameFind(s.slots, t.slots, s.current);
  }

  lemma MergeOutcome(s: State, ok: bool)
    requires s.enabled && s.current != NULL && s.previous != NULL
    ensures var t := MergeSnapshot(s, ok);
            && t.slots == s.slots && t.current == s.current && t.numbers == s.numbers
            && (if Traced(s, s.current) && Traced(s, s.previous) && ok then
                  NothingFailed(s, t) && t == MergeInto(s, SlotOf(s, s.current).probe, SlotOf(s, s.previous).snapshot)
                else
                  && Failed(s, t, if !Traced(s, s.current) then NoCurrentProbe
                                  else if !Traced(s, s.previous) then NoPreviousProbe else MergeFailed)
                  && t.probes == s.probes && t.merges == s.merges)
  {
    hide FindSlot;
  }

  lemma OffLogsNothing(s: State, e: Event, ok: bool)
    requires !s.enabled
    ensures LogEvent(s, e, ok) == s && ProduceSnapshot(s, ok) == s
  {
  }

  lemma LogActs(cfg: Config, s: State, k: Kernel, e: Event)
    requires RegistryInv(cfg, s, k) && s.enabled && s.current != NULL && Traced(s, s.current)
    ensures AddsToLog(s, LogEvent(s, e, true), s.current, [e])
  {
    LogUnfolds(s, e, true);
    TracedHasProbe(cfg, s, k, s.current);
    SlotNamesProbe(cfg, s, k, s.current);
    RecordLogs(cfg, s, k, s.current, e);
    hide *;
  }

  lemma LogAdds(s: State, e: Event, p: nat)
    requires s.enabled && s.current != NULL && ProbeOf(s, s.current) == Some(p) && p < |s.probes|
    ensures var t := LogEvent(s, e, true);
            |t.probes| == |s.probes| && t.probes[p].past == s.probes[p].past + {Stamp(p, |s.probes[p].log|)}
  {
    LogUnfolds(s, e, true);
    hide LogEvent, FindSlot;
  }

  // ----- Each hook -----

  /** What a hook that acts and does not fail has done, for a task with probe `p`. */
  ghost predicate Done(s: State, t: State, op: Op, p: nat)
    requires IsHook(op)
  {
    && NothingFailed(s, t) && AddsToLog(s, t, op.task, [EventOf(op)]) && p < |t.probes| == |s.probes|
    && (Merges(s, op) ==> Traced(s, s.current) && SlotOf(s, s.current).snapshot.Snapshot?)
    && t.merges == s.merges + (if Merges(s, op) then [Merge(p, SlotOf(s, s.current).snapshot)] else [])
    && t.probes[p].past == s.probes[p].past + {Stamp(p, |s.probes[p].log|)}
                           + (if Merges(s, op) then SlotOf(s, s.current).snapshot.past else {})
    && (op.SwitchedOut? ==> Traced(t, op.task) && SlotOf(t, op.task).snapshot == Snapshot(p, t.probes[p].past))
  }

  /** What a hook that fails has done: logged nothing, unless only the snapshot failed; and left the slots alone. */
  ghost predicate Undone(s: State, t: State, op: Op, e: Error)
    requires IsHook(op)
  {
    && Failed(s, t, e) && t.slots == s.slots
    && AddsToLog(s, t, op.task, if e == SnapshotFailed then [EventOf(op)] else [])
  }

  ghost predicate Outcome(s: State, t: State, op: Op)
    requires IsHook(op)
  {
    if !Acts(s, op) then t == s.(current := t.current, previous := t.previous)
    else
      match Failure(s, op)
      case Some(e) => Undone(s, t, op, e)
      case None => ProbeOf(s, op.task).Some? && Done(s, t, op, ProbeOf(s, op.task).value)
  }

  lemma EventOnly(cfg: Config, s: State, k: Kernel, op: Op)
    requires op.Hook? && RegistryInv(cfg, s, k) && Acts(s, op) && s.current == op.task
    ensures Outcome(s, Step(cfg, s, op), op)
  {
    hide RegistryInv, LogEvent, FindSlot, Gate, AddsToLog, ProbeOf;
    LogOutcome(s, op.event, op.recordOk);
    TracedHasProbe(cfg, s, k, op.task);
    SlotNamesProbe(cfg, s, k, op.task);
    if Failure(s, op).None? {
      LogActs(cfg, s, k, op.event);
      LogAdds(s, op.event, ProbeOf(s, op.task).value);
    } else {
      LogsNothing(s, Step(cfg, s, op), op.task);
    }
  }

  lemma EventAndSnapshot(cfg: Config, s: State, k: Kernel, op: Op)
    requires op.SwitchedOut? && RegistryInv(cfg, s, k) && Acts(s, op) && s.current == op.task
    ensures Outcome(s, Step(cfg, s, op), op)
  {
    var task, e := op.task, EventOf(op);
    var s1 := LogEvent(s, e, op.recordOk);
    var t := ProduceSnapshot(s1, op.snapshotOk);
    assert Step(cfg, s, op) == t;
    hide RegistryInv, LogEvent, ProduceSnapshot, FindSlot, Gate, AddsToLog, Step;
    LogOutcome(s, e, op.recordOk);
    TracedHasProbe(cfg, s, k, task);
    SlotNamesProbe(cfg, s, k, task);
    if !Traced(s, task) || !op.recordOk {
      OffLogsNothing(s1, e, op.snapshotOk);
      LogsNothing(s, s1, task);
    } else {
      LogActs(cfg, s, k, e);
      LogAdds(s, e, ProbeOf(s, task).value);
      SameTableProbeOf(s, s1, task);
      ProduceOutcome(s1, op.snapshotOk);
      ProduceLogs(s1, task, op.snapshotOk);
      LogsCompose(s, s1, t, task, [e], []);
      assert [e] + [] == [e];
    }
  }

  /** A switch in that has merged what it merges, and has not logged its event. */
  ghost predicate Between(s: State, s2: State, op: Op)
    requires op.SwitchedIn?
  {
    && NothingFailed(s, s2) && s2.slots == s.slots && |s2.probes| == |s.probes|
    && (Merges(s, op) && Traced(s, op.task) ==>
          Traced(s, s.current) && SlotOf(s, s.current).snapshot.Snapshot? && op.mergeOk)
    && (Traced(s, op.task) ==>
          && ProbeOf(s, op.task).Some? && ProbeOf(s, op.task).value < |s.probes|
          && var p, merged := ProbeOf(s, op.task).value, Merges(s, op);
             && s2.merges == s.merges + (if merged then [Merge(p, SlotOf(s, s.current).snapshot)] else [])
             && s2.probes[p].log == s.probes[p].log
             && s2.probes[p].past == s.probes[p].past + (if merged then SlotOf(s, s.current).snapshot.past else {}))
  }

  /** The event of a switch in, when nothing was merged or the merge has been done: `s2` is the state between. */
  lemma EventAfterMerge(cfg: Config, s: State, s2: State, k: Kernel, op: Op)
    requires op.SwitchedIn? && RegistryInv(cfg, s, k) && Acts(s, op) && op.task != NULL && s2.current == op.task
    requires RegistryInv(cfg, s2, k) && AddsToLog(s, s2, op.task, [])
    requires Between(s, s2, op)
    ensures Outcome(s, LogEvent(s2, EventOf(op), op.recordOk), op)
  {
    var task, e := op.task, EventOf(op);
    var t := LogEvent(s2, e, op.recordOk);
    hide FindSlot;
    assert Traced(s2, task) == Traced(s, task) && ProbeOf(s2, task) == ProbeOf(s, task);
    hide RegistryInv, LogEvent, Gate, AddsToLog, Traced, ProbeOf, SlotOf;
    LogOutcome(s2, e, op.recordOk);
    if Traced(s, task) && op.recordOk {
      LogActs(cfg, s2, k, e);
      LogAdds(s2, e, ProbeOf(s, task).value);
      LogsCompose(s, s2, t, task, [], [e]);
      assert [] + [e] == [e];
    } else {
      LogsNothing(s2, t, task);
      LogsCompose(s, s2, t, task, [], []);
      NoneAndNone<Event>();
    }
  }

  /** A switch in whose merge failed: the event is not logged. */
  lemma AfterFailedMerge(cfg: Config, s: State, s2: State, k: Kernel, op: Op, failure: Error)
    requires op.SwitchedIn? && Acts(s, op) && Failed(s, s2, failure) && Failure(s, op) == Some(failure)
    requires failure != SnapshotFailed && s2.slots == s.slots && AddsToLog(s, s2, op.task, [])
    ensures Outcome(s, LogEvent(s2, EventOf(op), op.recordOk), op)
  {
    OffLogsNothing(s2, EventOf(op), op.recordOk);
    hide LogEvent, FindSlot, Gate, AddsToLog;
  }

  lemma SwitchInParts(cfg: Config, s: State, op: Op)
    requires op.SwitchedIn? && Acts(s, op)
    ensures var s1 := SwitchedTcb(s, op.task);
            && s1 == s.(current := op.task, previous := s1.previous) && (Merges(s, op) ==> s1.previous == s.current)
            && Step(cfg, s, op) ==
               LogEvent(if Merges(s, op) then MergeSnapshot(s1, op.mergeOk) else s1, EventOf(op), op.recordOk)
  {
    hide FindSlot, Gate, LogEvent;
  }

  lemma NothingMerged(s: State, s1: State, op: Op)
    requires op.SwitchedIn? && !Merges(s, op) && s1 == s.(current := s1.current, previous := s1.previous)
    requires Traced(s, op.task) ==> ProbeOf(s, op.task).Some? && ProbeOf(s, op.task).value < |s.probes|
    ensures Between(s, s1, op)
  {
    hide FindSlot;
  }

  lemma EventWithoutMerge(cfg: Config, s: State, k: Kernel, op: Op)
    requires op.SwitchedIn? && RegistryInv(cfg, s, k) && Acts(s, op) && op.task != NULL && !Merges(s, op)
    ensures Outcome(s, Step(cfg, s, op), op)
  {
    hide *;
    var s1 := SwitchedTcb(s, op.task);
    SwitchInParts(cfg, s, op);
    TracedHasProbe(cfg, s, k, op.task);
    SlotNamesProbe(cfg, s, k, op.task);
    NothingMerged(s, s1, op);
    SameTasksLog(s, s1, op.task);
    BeforeEvent(cfg, s, s1, k, op.task, op.mergeOk);
    EventAfterMerge(cfg, s, s1, k, op);
  }

  lemma SameTasksLog(s: State, s1: State, task: Handle)
    requires s1 == s.(current := s1.current, previous := s1.previous)
    ensures AddsToLog(s, s1, task, [])
  {
    LogsNothing(s, s1, task);
  }

  lemma Merged(s: State, s1: State, op: Op)
    requires Merges(s, op) && s1 == s.(current := op.task, previous := s.current) && s.enabled && op.task != NULL
    requires Traced(s, op.task) && Traced(s, s.current) && op.mergeOk
    requires ProbeOf(s, op.task).Some? && ProbeOf(s, op.task).value < |s.probes|
    requires SlotOf(s, s.current).snapshot.Snapshot?
    ensures Between(s, MergeSnapshot(s1, op.mergeOk), op)
  {
    MergeOutcome(s1, op.mergeOk);
    hide FindSlot, MergeSnapshot;
  }

  lemma MergeAndEvent(cfg: Config, s: State, k: Kernel, op: Op)
    requires op.SwitchedIn? && RegistryInv(cfg, s, k) && Acts(s, op) && op.task != NULL && Merges(s, op)
    ensures Outcome(s, Step(cfg, s, op), op)
  {
    var task := op.task;
    var s1 := SwitchedTcb(s, task);
    var s2 := MergeSnapshot(s1, op.mergeOk);
    SwitchInParts(cfg, s, op);
    SlotsHaveSnapshots(cfg, s, k);
    hide RegistryInv, LogEvent, MergeSnapshot, FindSlot, Gate, AddsToLog, Step, Outcome, SwitchedTcb, EventOf,
         ProbeOf;
    TracedHasProbe(cfg, s, k, task);
    SlotNamesProbe(cfg, s, k, task);
    LogsNothing(s, s1, task);
    BeforeEvent(cfg, s, s1, k, task, op.mergeOk);
    if Traced(s, task) && Traced(s, s.current) && op.mergeOk {
      Merged(s, s1, op);
      hide MergeInto, SlotOf, Between;
      EventAfterMerge(cfg, s, s2, k, op);
    } else {
      MergeOutcome(s1, op.mergeOk);
      AfterFailedMerge(cfg, s, s2, k, op, Failure(s, op).value);
    }
  }

  lemma SlotsHaveSnapshots(cfg: Config, s: State, k: Kernel)
    requires RegistryInv(cfg, s, k)
    ensures forall h :: Traced(s, h) ==> SlotOf(s, h).snapshot.Snapshot?
  {
    hide Filter, ProbeId, FindSlotFrom;
  }
  /** A hook that does not act does nothing, but that a task switched in is remembered. */
  lemma Idle(cfg: Config, s: State, op: Op)
    requires IsHook(op) && !Acts(s, op)
    ensures Outcome(s, Step(cfg, s, op), op)
  {
    hide FindSlot, Gate;
  }

  /**
   * For every hook in every legal run, with or without earlier errors: whether it acts, which assertion fails in it,
   * and that it then leaves tracing off with that error; and otherwise the one event it logs, what it merges, and the
   * snapshot it stores.
   */
  lemma HooksAreExact(cfg: Config, ops: seq<Op>, op: Op)
    requires Legal(cfg, ops) && IsHook(op) && Allowed(cfg, KernelRun(ops), op)
    ensures Outcome(Run(cfg, ops), Run(cfg, ops + [op]), op)
  {
    var s, k := Run(cfg, ops), KernelRun(ops);
    RunExtends(cfg, ops, op);
    ReachableRegistry(cfg, ops);
    ReachableAttribution(cfg, ops);
    hide Run, KernelRun, Legal, RegistryInv, Step, Gate, Outcome, FindSlot;
    if !Acts(s, op) {
      Idle(cfg, s, op);
    } else {
      NotNull(cfg, s, k, op.task);
      if Merges(s, op) {
        MergeAndEvent(cfg, s, k, op);
      } else if op.SwitchedIn? {
        EventWithoutMerge(cfg, s, k, op);
      } else {
        assert k.started;
        RunningIsLast(s, k, Chain(cfg, ops));
        if op.SwitchedOut? {
          EventAndSnapshot(cfg, s, k, op);
        } else {
          EventOnly(cfg, s, k, op);
        }
      }
    }
  }
}
