/** What each probe's log holds: exactly the events of its own task. */
module Logs {
  import opened Options
  import opened ProbeIdHash
  import opened Trace
  import opened Registry
  import opened Latch
  import opened Attribution
  import opened Causality
  import opened Sequences

  /** The events a run has for one task: its creation, its switches, and the hooks that ran while it did. */
  ghost function Project(ops: seq<Op>, h: Handle): seq<Event> {
    if ops == [] then []
    else
      var front := ops[..|ops| - 1];
      Project(front, h) + OwnEvents(KernelRun(front), ops[|ops| - 1], h)
  }

  ghost function OwnEvents(k: Kernel, op: Op, h: Handle): seq<Event> {
    match op
    case Create(task, _, priority, _) => if task == h then [Event(TASK_CREATE, Some(priority))] else []
    case SwitchedIn(task, priority, _, _) => if task == h then [Event(TASK_SWITCHED_IN, Some(priority))] else []
    case SwitchedOut(task, _, _) => if task == h then [Event(TASK_SWITCHED_OUT, None)] else []
    case Hook(task, e, _) => if task == h && k.running == h then [e] else []
    case _ => []
  }

  ghost function LogOf(s: State, h: Handle): seq<Event> {
    var p := ProbeOf(s, h);
    if p.Some? && p.value < |s.probes| then s.probes[p.value].log else []
  }

  /** `t` is `s` with the events `es` added to the log of `task`, and no other log touched. */
  ghost predicate AddsToLog(s: State, t: State, task: Handle, es: seq<Event>) {
    && (forall h :: ProbeOf(t, h) == ProbeOf(s, h))
    && (forall h :: ProbeOf(s, h).Some? ==> LogOf(t, h) == LogOf(s, h) + (if h == task then es else []))
  }

  /** Different traced tasks have different probes. */
  lemma ProbesDiffer(cfg: Config, s: State, k: Kernel, g: Handle, h: Handle)
    requires RegistryInv(cfg, s, k) && g != h && ProbeOf(s, g).Some?
    ensures ProbeOf(s, g) != ProbeOf(s, h)
  {
    hide Filter, ProbeId, FindSlotFrom, HashName;
    if ProbeOf(s, h).Some? {
      var i, j := FindSlot(s.slots, g).value, FindSlot(s.slots, h).value;
      assert i < j || j < i;
    }
  }

  lemma RecordLogs(cfg: Config, s: State, k: Kernel, task: Handle, e: Event)
    requires RegistryInv(cfg, s, k) && ProbeOf(s, task).Some? && ProbeOf(s, task).value < |s.probes|
    ensures AddsToLog(s, Record(s, ProbeOf(s, task), e), task, [e])
  {
    var t := Record(s, ProbeOf(s, task), e);
    forall h
      ensures ProbeOf(t, h) == ProbeOf(s, h)
      ensures ProbeOf(s, h).Some? ==> LogOf(t, h) == LogOf(s, h) + (if h == task then [e] else [])
    {
      assert ProbeOf(t, h) == ProbeOf(s, h);
      hide RegistryInv, FindSlot, ProbeOf;
      SlotNamesProbe(cfg, s, k, h);
      if h != task {
        ProbesDiffer(cfg, s, k, task, h);
      }
    }
  }

  /** An event logged while `task` is the remembered task goes to the probe of `task`. */
  lemma LogEventLogs(cfg: Config, s: State, k: Kernel, e: Event, ok: bool)
    requires RegistryInv(cfg, s, k) && s.enabled && s.current != NULL
    ensures var t := LogEvent(s, e, ok); t.error.None? ==> AddsToLog(s, t, s.current, [e])
  {
    LogUnfolds(s, e, ok);
    hide RegistryInv, FindSlot, LogEvent;
    if ProbeOf(s, s.current).Some? {
      SlotNamesProbe(cfg, s, k, s.current);
      RecordLogs(cfg, s, k, s.current, e);
    } else {
      TracedHasProbe(cfg, s, k, s.current);
    }
  }

  lemma TracedHasProbe(cfg: Config, s: State, k: Kernel, h: Handle)
    requires RegistryInv(cfg, s, k)
    ensures Traced(s, h) <==> ProbeOf(s, h).Some?
  {
    hide Filter, ProbeId, FindSlotFrom, HashName;
    if Traced(s, h) {
      assert SlotInv(s, k, SlotOf(s, h));
    }
  }

  lemma LogUnfolds(s: State, e: Event, ok: bool)
    requires s.enabled && s.current != NULL
    ensures LogEvent(s, e, ok) ==
            if !Traced(s, s.current) then Abort(s, NoCurrentProbe)
            else if ok then Record(s, ProbeOf(s, s.current), e) else Abort(s, LogFailed)
  {
    hide FindSlot;
  }

  lemma LogsNothing(s: State, t: State, task: Handle)
    requires SameTable(s, t) && SameEvents(s, t)
    ensures AddsToLog(s, t, task, [])
  {
    forall h
      ensures ProbeOf(t, h) == ProbeOf(s, h)
    {
      SameTableProbeOf(s, t, h);
    }
    hide ProbeOf;
  }

  lemma LogsCompose(s: State, t: State, u: State, task: Handle, d: seq<Event>, e: seq<Event>)
    requires AddsToLog(s, t, task, d) && AddsToLog(t, u, task, e)
    ensures AddsToLog(s, u, task, d + e)
  {
    hide ProbeOf;
  }

  lemma MergeLogs(s: State, task: Handle, ok: bool)
    ensures AddsToLog(s, MergeSnapshot(s, ok), task, [])
  {
    hide FindSlotFrom;
    var t := MergeSnapshot(s, ok);
    assert t.slots == s.slots;
    forall h
      ensures ProbeOf(t, h) == ProbeOf(s, h)
    {
    }
    assert |t.probes| == |s.probes| && forall p :: 0 <= p < |s.probes| ==> t.probes[p].log == s.probes[p].log;
    hide ProbeOf, MergeSnapshot;
  }

  lemma ProduceLogs(s: State, task: Handle, ok: bool)
    ensures AddsToLog(s, ProduceSnapshot(s, ok), task, [])
  {
    var t := ProduceSnapshot(s, ok);
    hide FindSlotFrom;
    assert t.probes == s.probes;
    forall h
      ensures ProbeOf(t, h) == ProbeOf(s, h)
    {
      SameFind(s.slots, t.slots, h);
    }
    hide ProbeOf, ProduceSnapshot;
  }

  lemma SwitchInLogs(cfg: Config, s: State, k: Kernel, op: Op)
    requires op.SwitchedIn? && RegistryInv(cfg, s, k) && Gate(s, op.task) && s.enabled
    ensures var t := Step(cfg, s, op);
            t.error.None? ==> AddsToLog(s, t, op.task, [Event(TASK_SWITCHED_IN, Some(op.priority))])
  {
    hide RegistryInv, Gate, LogEvent, MergeSnapshot, FindSlot, AddsToLog, SameRegistry;
    var task, e := op.task, Event(TASK_SWITCHED_IN, Some(op.priority));
    var s1 := SwitchedTcb(s, task);
    var s2 := if s.current != task then MergeSnapshot(s1, op.mergeOk) else s1;
    var t := LogEvent(s2, e, op.recordOk);
    NotNull(cfg, s, k, task);
    LogsNothing(s, s1, task);
    BeforeEvent(cfg, s, s1, k, task, op.mergeOk);
    LogLatches(s2, e, op.recordOk);
    if t.error.None? {
      LogEventLogs(cfg, s2, k, e, op.recordOk);
      LogsCompose(s, s2, t, task, [], [e]);
      assert [] + [e] == [e];
    }
  }

  /** The merge that precedes the event of a switch in logs nothing. */
  lemma BeforeEvent(cfg: Config, s: State, s1: State, k: Kernel, task: Handle, ok: bool)
    requires RegistryInv(cfg, s, k) && s1 == s.(current := s1.current, previous := s1.previous)
    requires AddsToLog(s, s1, task, [])
    ensures var s2 := MergeSnapshot(s1, ok);
            && AddsToLog(s, s2, task, []) && RegistryInv(cfg, s1, k) && RegistryInv(cfg, s2, k)
            && s2.current == s1.current && (s2.error.None? ==> s2.enabled == s1.enabled)
  {
    assert SameRegistry(s, s1);
    hide RegistryInv, MergeSnapshot, FindSlot, AddsToLog, SameRegistry;
    MergeLogs(s1, task, ok);
    MergeSame(s1, ok);
    MergeKeepsTasks(s1, ok);
    KeepsInv(cfg, s, s1, k);
    KeepsInv(cfg, s1, MergeSnapshot(s1, ok), k);
    LogsCompose(s, s1, MergeSnapshot(s1, ok), task, [], []);
    NoneAndNone<Event>();
  }

  lemma MergeKeepsTasks(s: State, ok: bool)
    ensures MergeSnapshot(s, ok).current == s.current
    ensures MergeSnapshot(s, ok).error.None? ==> MergeSnapshot(s, ok).enabled == s.enabled
  {
    hide FindSlot;
  }

  lemma SwitchOutLogs(cfg: Config, s: State, k: Kernel, op: Op)
    requires op.SwitchedOut? && RegistryInv(cfg, s, k) && Gate(s, op.task) && s.enabled && s.current == op.task
    ensures var t := Step(cfg, s, op); t.error.None? ==> AddsToLog(s, t, op.task, [Event(TASK_SWITCHED_OUT, None)])
  {
    var task, e := op.task, Event(TASK_SWITCHED_OUT, None);
    NotNull(cfg, s, k, task);
    var s1 := LogEvent(s, e, op.recordOk);
    var t := ProduceSnapshot(s1, op.snapshotOk);
    ProduceLatches(s1, op.snapshotOk);
    hide RegistryInv, Gate, LogEvent, ProduceSnapshot, FindSlot, AddsToLog;
    if t.error.None? {
      LogEventLogs(cfg, s, k, e, op.recordOk);
      ProduceLogs(s1, task, op.snapshotOk);
      LogsCompose(s, s1, t, task, [e], []);
      assert [e] + [] == [e];
    }
  }

  // ----- Every run -----

  ghost predicate LogsInv(s: State, k: Kernel, ops: seq<Op>) {
    Good(s, k) ==> forall h :: ProbeOf(s, h).Some? ==> LogOf(s, h) == Project(ops, h)
  }

  lemma {:induction false} NothingBeforeCreation(cfg: Config, ops: seq<Op>, h: Handle)
    requires Legal(cfg, ops) && h != NULL && h !in KernelRun(ops).names && h !in KernelRun(ops).reserved
    ensures Project(ops, h) == [] && KernelRun(ops).running != h
  {
    if ops != [] {
      var front, op := ops[..|ops| - 1], ops[|ops| - 1];
      NothingBeforeCreation(cfg, front, h);
      hide Legal, Project, KernelRun;
      assert OwnEvents(KernelRun(front), op, h) == [];
    }
  }

  lemma LogsGiveStep(s: State, t: State, k: Kernel, l: Kernel, ops: seq<Op>, op: Op, task: Handle)
    requires LogsInv(s, k, ops) && Good(s, k) && k == KernelRun(ops)
    requires AddsToLog(s, t, task, OwnEvents(k, op, task))
    requires forall h :: h != task ==> OwnEvents(k, op, h) == []
    ensures LogsInv(t, l, ops + [op])
  {
    hide ProbeOf, LogOf, OwnEvents;
    assert (ops + [op])[..|ops|] == ops;
    forall h | ProbeOf(t, h).Some?
      ensures LogOf(t, h) == Project(ops + [op], h)
    {
      assert Project(ops + [op], h) == Project(ops, h) + OwnEvents(k, op, h);
    }
  }

  lemma UngatedHasNoProbe(cfg: Config, s: State, k: Kernel, task: Handle)
    requires RegistryInv(cfg, s, k) && !Gate(s, task)
    ensures ProbeOf(s, task) == None
  {
    GateIsFilter(s, task);
    hide Filter, ProbeId, FindSlotFrom, HashName;
    assert Traced(s, task) ==> SlotInv(s, k, SlotOf(s, task));
  }

  lemma UntracedLogs(s: State, task: Handle, es: seq<Event>)
    requires ProbeOf(s, task) == None
    ensures AddsToLog(s, s, task, es)
  {
    hide ProbeOf;
  }

  lemma CreateKeepsLogs(cfg: Config, ops: seq<Op>, op: Op)
    requires Legal(cfg, ops) && op.Create? && Allowed(cfg, KernelRun(ops), op)
    requires var s, k := Run(cfg, ops), KernelRun(ops);
             LogsInv(s, k, ops) && RegistryInv(cfg, s, k) && Good(s, k) && Step(cfg, s, op).error.None?
    ensures LogsInv(Step(cfg, Run(cfg, ops), op), KernelStep(KernelRun(ops), op), ops + [op])
  {
    var s, k, task, id := Run(cfg, ops), KernelRun(ops), op.task, HashName(op.name);
    var t, l := Step(cfg, s, op), KernelStep(k, op);
    FreshTask(cfg, s, k, task);
    NothingBeforeCreation(cfg, ops, task);
    hide Legal, Run, KernelRun;
    if !s.enabled {
      UntracedLogs(s, task, OwnEvents(k, op, task));
      LogsGiveStep(s, t, k, l, ops, op, task);
    } else {
      RegisterEffect(cfg, s, task, op.name, op.priority, op.env);
      hide Register, HashName, RegistryInv, Installed, Filter, Numbered;
      if Installed(s, t, task, id, op.priority) {
        InstalledLogs(cfg, s, t, k, task, id, op.priority);
        hide ProbeOf, LogOf;
        NewLogIsProjection(s, t, k, l, ops, op);
      } else {
        LogsNothing(s, t, task);
        assert AddsToLog(s, t, task, OwnEvents(k, op, task));
        LogsGiveStep(s, t, k, l, ops, op, task);
      }
    }
  }

  /** A probe that is new has logged the creation of its task and nothing else. */
  lemma NewLogIsProjection(s: State, t: State, k: Kernel, l: Kernel, ops: seq<Op>, op: Op)
    requires op.Create? && LogsInv(s, k, ops) && Good(s, k) && k == KernelRun(ops) && Project(ops, op.task) == []
    requires LogOf(t, op.task) == [Event(TASK_CREATE, Some(op.priority))]
    requires forall h :: h != op.task ==> ProbeOf(t, h) == ProbeOf(s, h) && LogOf(t, h) == LogOf(s, h)
    ensures LogsInv(t, l, ops + [op])
  {
    hide ProbeOf, LogOf;
    assert (ops + [op])[..|ops|] == ops;
    forall h | ProbeOf(t, h).Some?
      ensures LogOf(t, h) == Project(ops + [op], h)
    {
      assert Project(ops + [op], h) == Project(ops, h) + OwnEvents(k, op, h);
    }
  }

  lemma InstalledLogs(cfg: Config, s: State, t: State, k: Kernel, task: Handle, id: bv16, priority: nat)
    requires RegistryInv(cfg, s, k) && task != NULL && task !in k.names && Installed(s, t, task, id, priority)
    requires t.error.None?
    ensures LogOf(t, task) == [Event(TASK_CREATE, Some(priority))]
    ensures forall h :: h != task ==> ProbeOf(t, h) == ProbeOf(s, h) && LogOf(t, h) == LogOf(s, h)
  {
    var n := |s.probes|;
    InstalledProbeOf(cfg, s, t, k, task, id, priority, task);
    forall h | h != task
      ensures ProbeOf(t, h) == ProbeOf(s, h) && LogOf(t, h) == LogOf(s, h)
    {
      InstalledProbeOf(cfg, s, t, k, task, id, priority, h);
      SlotNamesProbe(cfg, s, k, h);
      hide ProbeOf, RegistryInv;
      if ProbeOf(s, h).Some? {
        assert t.probes[..n][ProbeOf(s, h).value] == s.probes[ProbeOf(s, h).value];
      }
    }
  }

  lemma SwitchOrHookKeepsLogs(cfg: Config, ops: seq<Op>, op: Op)
    requires Legal(cfg, ops) && (op.SwitchedIn? || op.SwitchedOut? || op.Hook?) && Allowed(cfg, KernelRun(ops), op)
    requires var s, k := Run(cfg, ops), KernelRun(ops);
             LogsInv(s, k, ops) && Good(Step(cfg, s, op), KernelStep(k, op))
    ensures LogsInv(Step(cfg, Run(cfg, ops), op), KernelStep(KernelRun(ops), op), ops + [op])
  {
    ReachableRegistry(cfg, ops);
    var s, k, c, task := Run(cfg, ops), KernelRun(ops), Chain(cfg, ops), op.task;
    var t, l := Step(cfg, s, op), KernelStep(k, op);
    ReachableAttribution(cfg, ops);
    GoodBefore(cfg, s, k, op);
    hide Legal, Run, KernelRun, RegistryInv, LogsInv, LogEvent, MergeSnapshot, ProduceSnapshot, Gate, ProbeOf,
         AddsToLog;
    if !Gate(s, task) {
      assert t == s;
      UngatedHasNoProbe(cfg, s, k, task);
      UntracedLogs(s, task, OwnEvents(k, op, task));
    } else if op.SwitchedIn? {
      SwitchInLogs(cfg, s, k, op);
    } else if op.SwitchedOut? {
      RunningIsLast(s, k, c);
      SwitchOutLogs(cfg, s, k, op);
    } else if k.started {
      RunningIsLast(s, k, c);
      LogEventLogs(cfg, s, k, op.event, op.recordOk);
    } else {
      assert s.current == NULL;
      LogDoesNothing(s, op.event, op.recordOk);
      if task == NULL {
        NotNull(cfg, s, k, task);
      } else {
        LogsNothing(s, t, task);
      }
    }
    hide Step;
    LogsGiveStep(s, t, k, l, ops, op, task);
  }

  lemma LogDoesNothing(s: State, e: Event, ok: bool)
    requires s.current == NULL
    ensures LogEvent(s, e, ok) == s
  {
  }

  lemma {:induction false} ReachableLogs(cfg: Config, ops: seq<Op>)
    requires Legal(cfg, ops)
    ensures LogsInv(Run(cfg, ops), KernelRun(ops), ops)
  {
    if ops == [] {
    } else {
      var front, op := ops[..|ops| - 1], ops[|ops| - 1];
      var s, k := Run(cfg, front), KernelRun(front);
      var t, l := Step(cfg, s, op), KernelStep(k, op);
      ReachableLogs(cfg, front);
      ReachableRegistry(cfg, front);
      assert front + [op] == ops;
      hide RegistryInv, Allowed, LogsInv, Legal;
      if Good(t, l) {
        GoodBefore(cfg, s, k, op);
        hide Step, KernelStep;
        if op.Create? {
          CreateKeepsLogs(cfg, front, op);
        } else if op.SwitchedIn? || op.SwitchedOut? || op.Hook? {
          SwitchOrHookKeepsLogs(cfg, front, op);
        } else {
          OtherKeepsLogs(cfg, front, op);
        }
      } else {
        NotGoodNoLogs(t, l, ops);
      }
    }
  }

  lemma NotGoodNoLogs(s: State, k: Kernel, ops: seq<Op>)
    requires !Good(s, k)
    ensures LogsInv(s, k, ops)
  {
  }

  lemma OtherKeepsLogs(cfg: Config, ops: seq<Op>, op: Op)
    requires !op.Create? && !op.SwitchedIn? && !op.SwitchedOut? && !op.Hook?
    requires LogsInv(Run(cfg, ops), KernelRun(ops), ops) && Good(Run(cfg, ops), KernelRun(ops))
    ensures LogsInv(Step(cfg, Run(cfg, ops), op), KernelStep(KernelRun(ops), op), ops + [op])
  {
    var s, k := Run(cfg, ops), KernelRun(ops);
    var t, l := Step(cfg, s, op), KernelStep(k, op);
    OtherIsQuiet(cfg, s, op);
    hide Run, KernelRun, Step, KernelStep, LogsInv;
    LogsNothing(s, t, NULL);
    LogsGiveStep(s, t, k, l, ops, op, NULL);
  }

  /**
   * Attribution and completeness of the logs: with tracing on since the scheduler started and no error,
   * the log of each traced task's probe is the sequence of that task's own events in the run.
   */
  lemma LogIsProjection(cfg: Config, ops: seq<Op>, h: Handle)
    requires Legal(cfg, ops) && Good(Run(cfg, ops), KernelRun(ops)) && Traced(Run(cfg, ops), h)
    ensures var s := Run(cfg, ops);
            && ProbeOf(s, h).Some? && ProbeOf(s, h).value < |s.probes|
            && s.probes[ProbeOf(s, h).value].log == Project(ops, h)
  {
    var s, k := Run(cfg, ops), KernelRun(ops);
    ReachableLogs(cfg, ops);
    ReachableRegistry(cfg, ops);
    hide Run, KernelRun, Legal, Project, FindSlot, RegistryInv;
    TracedHasProbe(cfg, s, k, h);
    SlotNamesProbe(cfg, s, k, h);
  }

  // ----- With or without errors -----

  /** No log but that of the probe of `task` differs. */
  ghost predicate OnlyOwnLog(s: State, t: State, task: Handle) {
    && |t.probes| == |s.probes|
    && forall p :: 0 <= p < |s.probes| ==> t.probes[p].log == s.probes[p].log || ProbeOf(s, task) == Some(p)
  }

  lemma LogEventOnlyOwn(s: State, e: Event, ok: bool)
    ensures OnlyOwnLog(s, LogEvent(s, e, ok), s.current)
  {
    hide FindSlotFrom;
  }

  lemma SwitchInOnlyOwn(s: State, task: Handle, priority: nat, mergeOk: bool, recordOk: bool)
    ensures OnlyOwnLog(s, SwitchIn(s, task, priority, mergeOk, recordOk), task)
  {
    if Gate(s, task) {
      var e := Event(TASK_SWITCHED_IN, Some(priority));
      var s1 := SwitchedTcb(s, task);
      var s2 := if s.current != task then MergeSnapshot(s1, mergeOk) else s1;
      assert s2.slots == s.slots && |s2.probes| == |s.probes| && s2.current == task by {
        hide FindSlot;
      }
      assert forall p :: 0 <= p < |s.probes| ==> s2.probes[p].log == s.probes[p].log by {
        hide FindSlot;
      }
      LogEventOnlyOwn(s2, e, recordOk);
      hide LogEvent, MergeSnapshot, FindSlot, Gate;
    }
  }

  lemma SwitchOutOnlyOwn(s: State, task: Handle, recordOk: bool, snapshotOk: bool)
    requires Gate(s, task) ==> s.current == task
    ensures OnlyOwnLog(s, SwitchOut(s, task, recordOk, snapshotOk), task)
  {
    var s1 := LogEvent(s, Event(TASK_SWITCHED_OUT, None), recordOk);
    LogEventOnlyOwn(s, Event(TASK_SWITCHED_OUT, None), recordOk);
    assert ProduceSnapshot(s1, snapshotOk).probes == s1.probes by {
      hide FindSlot;
    }
    hide LogEvent, ProduceSnapshot, FindSlot, Gate;
  }

  /**
   * In every reachable state, errors or not, a hook that runs for `task` writes to no log but that of
   * the probe of `task`, though the gate tests the running task and the write uses the remembered one.
   */
  lemma HooksWriteOwnLog(cfg: Config, ops: seq<Op>, op: Op)
    requires Legal(cfg, ops) && (op.SwitchedIn? || op.SwitchedOut? || op.Hook?) && Allowed(cfg, KernelRun(ops), op)
    ensures OnlyOwnLog(Run(cfg, ops), Step(cfg, Run(cfg, ops), op), op.task)
  {
    var s, k, task := Run(cfg, ops), KernelRun(ops), op.task;
    ReachableAttribution(cfg, ops);
    ReachableRegistry(cfg, ops);
    hide Run, KernelRun, Legal, RegistryInv, Gate, SwitchIn, SwitchOut, LogEvent, ProbeOf;
    if op.SwitchedIn? {
      SwitchInOnlyOwn(s, task, op.priority, op.mergeOk, op.recordOk);
    } else if op.SwitchedOut? {
      SwitchOutOnlyOwn(s, task, op.recordOk, op.snapshotOk);
    } else if Gate(s, task) {
      if s.current == NULL {
        LogDoesNothing(s, op.event, op.recordOk);
      } else {
        LogEventOnlyOwn(s, op.event, op.recordOk);
      }
    }
  }
}
