/** Which tasks are traced: the exclusion list with its zero sentinels implements a set of ids. */
module Decisions {
  import opened Options
  import opened ProbeIdHash
  import opened Trace
  import opened Registry
  import opened Latch
  import opened Runs

  /** The ids excluded so far, by `vTraceExcludeTask` or when the IO task is set up. */
  ghost function ExcludedIds(cfg: Config, ops: seq<Op>): set<bv16> {
    if ops == [] then {}
    else
      var front, op := ops[..|ops| - 1], ops[|ops| - 1];
      ExcludedIds(cfg, front)
      + if op.Exclude? then {HashName(op.name)}
        else if op.Enable? && SetsUpIoTask(cfg, Run(cfg, front), op.caller) then {HashName(cfg.ioTaskName)}
        else {}
  }

  /** A task is to be traced: tracing is on, its id is not 0, and the id has not been excluded. */
  ghost predicate ToTrace(cfg: Config, ops: seq<Op>, name: Bytes) {
    Run(cfg, ops).enabled && HashName(name) != 0 && HashName(name) !in ExcludedIds(cfg, ops)
  }

  /** The tasks to be traced, in the order they were created. */
  ghost function TasksToTrace(cfg: Config, ops: seq<Op>): seq<Handle> {
    if ops == [] then []
    else
      var front, op := ops[..|ops| - 1], ops[|ops| - 1];
      TasksToTrace(cfg, front) + if op.Create? && ToTrace(cfg, front, op.name) then [op.task] else []
  }

  /** Apart from 0, the list holds exactly the set. */
  ghost predicate ListIs(list: seq<bv16>, ids: set<bv16>) {
    forall id :: id != 0 ==> (id in list <==> id in ids)
  }

  /** The slots name exactly these tasks, in this order. */
  ghost predicate SlotsAre(slots: seq<Slot>, tasks: seq<Handle>) {
    && |tasks| <= |slots|
    && (forall i :: 0 <= i < |tasks| ==> slots[i].tcb == tasks[i] != NULL)
    && (forall i :: |tasks| <= i < |slots| ==> slots[i].tcb == NULL)
  }

  /** Storing an id over a free entry adds it to the set; storing 0 changes nothing. */
  lemma ExcludeAdds(s: State, name: Bytes, ids: set<bv16>)
    requires ListIs(s.excluded, ids) && ExcludeTask(s, name).error.None?
    ensures ListIs(ExcludeTask(s, name).excluded, ids + {HashName(name)})
    ensures s.error.None?
  {
    hide HashName, FindIdFrom;
    var t, added := ExcludeTask(s, name), HashName(name);
    var i := FindId(s.excluded, 0);
    if i.Some? {
      forall id | id != 0
        ensures id in t.excluded <==> id in s.excluded || id == added
      {
        if id in s.excluded {
          var j :| 0 <= j < |s.excluded| && s.excluded[j] == id;
          assert t.excluded[j] == id;
        }
        if id == added {
          assert t.excluded[i.value] == id;
        }
      }
    }
  }

  lemma OthersKeepList(cfg: Config, s: State, k: Kernel, op: Op)
    requires RegistryInv(cfg, s, k) && Allowed(cfg, k, op) && !op.Exclude?
    requires op.Enable? ==> !SetsUpIoTask(cfg, s, op.caller)
    ensures Step(cfg, s, op).excluded == s.excluded
  {
    hide Gate, FindSlot, FindId, HashName, HasRoom, Reaches, ProbeId, Register, SlotInv, EnableTracing, Filter,
         SwitchIn, SwitchOut;
    if op.Create? {
      if s.enabled {
        RegisterEffect(cfg, s, op.task, op.name, op.priority, op.env);
      } else {
        DisabledCreate(cfg, s, op);
      }
    } else if op.Enable? {
      EnableUnfolds(cfg, s, op.caller, op.ioTask, op.ioEnv);
    } else if op.SwitchedIn? {
      SwitchInKeepsList(s, op.task, op.priority, op.mergeOk, op.recordOk);
    } else if op.SwitchedOut? {
      SwitchOutKeepsList(s, op.task, op.recordOk, op.snapshotOk);
    }
  }

  lemma CallsKeepList(s: State, e: Event, ok: bool)
    ensures LogEvent(s, e, ok).excluded == s.excluded
    ensures MergeSnapshot(s, ok).excluded == s.excluded
    ensures ProduceSnapshot(s, ok).excluded == s.excluded
  {
    hide FindSlot;
  }

  lemma SwitchInKeepsList(s: State, task: Handle, priority: nat, mergeOk: bool, recordOk: bool)
    ensures SwitchIn(s, task, priority, mergeOk, recordOk).excluded == s.excluded
  {
    var e := Event(TASK_SWITCHED_IN, Some(priority));
    var s1 := SwitchedTcb(s, task);
    CallsKeepList(s1, e, mergeOk);
    CallsKeepList(if s.current != task then MergeSnapshot(s1, mergeOk) else s1, e, recordOk);
    hide Gate, LogEvent, MergeSnapshot;
  }

  lemma SwitchOutKeepsList(s: State, task: Handle, recordOk: bool, snapshotOk: bool)
    ensures SwitchOut(s, task, recordOk, snapshotOk).excluded == s.excluded
  {
    var e := Event(TASK_SWITCHED_OUT, None);
    CallsKeepList(s, e, recordOk);
    CallsKeepList(LogEvent(s, e, recordOk), e, snapshotOk);
    hide Gate, LogEvent, ProduceSnapshot;
  }

  lemma {:induction false} ListImplementsSet(cfg: Config, ops: seq<Op>)
    requires Legal(cfg, ops) && Run(cfg, ops).error.None?
    ensures ListIs(Run(cfg, ops).excluded, ExcludedIds(cfg, ops))
  {
    if ops == [] {
    } else {
      var front, op := ops[..|ops| - 1], ops[|ops| - 1];
      var s, k := Run(cfg, front), KernelRun(front);
      ReachableRegistry(cfg, front);
      ErrorFreeBefore(cfg, s, k, op);
      ListImplementsSet(cfg, front);
      hide HashName, RegistryInv, ListIs, Allowed, KernelRun, ExcludeTask;
      if op.Exclude? {
        ExcludeAdds(s, op.name, ExcludedIds(cfg, front));
      } else if op.Enable? && SetsUpIoTask(cfg, s, op.caller) {
        EnableUnfolds(cfg, s, op.caller, op.ioTask, op.ioEnv);
        hide EnableTracing;
        ExcludeAdds(s, cfg.ioTaskName, ExcludedIds(cfg, front));
      } else {
        OthersKeepList(cfg, s, k, op);
        hide Step;
        assert ExcludedIds(cfg, ops) == ExcludedIds(cfg, front);
      }
    }
  }

  /** The excluded ids in order, but for 0. */
  ghost function IdsInOrder(cfg: Config, ops: seq<Op>): seq<bv16> {
    if ops == [] then []
    else
      var front, op := ops[..|ops| - 1], ops[|ops| - 1];
      IdsInOrder(cfg, front)
      + if op.Exclude? then UnlessZero(HashName(op.name))
        else if op.Enable? && SetsUpIoTask(cfg, Run(cfg, front), op.caller) then UnlessZero(HashName(cfg.ioTaskName))
        else []
  }

  function UnlessZero(id: bv16): seq<bv16> {
    if id == 0 then [] else [id]
  }

  /** The list holds the first of these ids, as many as it has room for, and after them nothing. */
  ghost predicate HoldsFirst(list: seq<bv16>, ids: seq<bv16>) {
    && (forall i :: 0 <= i < |list| ==> list[i] == if i < |ids| then ids[i] else 0)
    && (forall i :: 0 <= i < |ids| ==> ids[i] != 0)
  }

  lemma ExcludeStores(s: State, name: Bytes, ids: seq<bv16>)
    requires HoldsFirst(s.excluded, ids)
    ensures var t := ExcludeTask(s, name);
            |t.excluded| == |s.excluded| && HoldsFirst(t.excluded, ids + UnlessZero(HashName(name)))
  {
    hide HashName, FindIdFrom;
    var n := |ids|;
    assert n < |s.excluded| ==> s.excluded[n] == 0;
    assert FindId(s.excluded, 0) == if n < |s.excluded| then Some(n) else None;
  }

  /**
   * In every reachable state, whatever has gone wrong, the list holds the ids excluded first, in order, and those
   * that came when it was full are not in it; the id 0 takes up no entry.
   */
  lemma {:induction false} ListHoldsFirstIds(cfg: Config, ops: seq<Op>)
    requires Legal(cfg, ops)
    ensures |Run(cfg, ops).excluded| == cfg.maxExcluded && HoldsFirst(Run(cfg, ops).excluded, IdsInOrder(cfg, ops))
  {
    if ops == [] {
    } else {
      var front, op := ops[..|ops| - 1], ops[|ops| - 1];
      var s, k := Run(cfg, front), KernelRun(front);
      LastStep(cfg, ops);
      ReachableRegistry(cfg, front);
      ListHoldsFirstIds(cfg, front);
      hide HashName, RegistryInv, HoldsFirst, Allowed, KernelRun, ExcludeTask, Run, Legal;
      if op.Exclude? {
        ExcludeStores(s, op.name, IdsInOrder(cfg, front));
      } else if op.Enable? && SetsUpIoTask(cfg, s, op.caller) {
        EnableUnfolds(cfg, s, op.caller, op.ioTask, op.ioEnv);
        hide EnableTracing;
        ExcludeStores(s, cfg.ioTaskName, IdsInOrder(cfg, front));
      } else {
        OthersKeepList(cfg, s, k, op);
        hide Step;
        assert IdsInOrder(cfg, ops) == IdsInOrder(cfg, front);
      }
    }
  }

  lemma ExcludeOutcome(s: State, name: Bytes, ids: seq<bv16>)
    requires HoldsFirst(s.excluded, ids)
    ensures var t := ExcludeTask(s, name);
            var failure := if HashedLength(name) == 0 then Some(EmptyName)
                           else if |ids| >= |s.excluded| then Some(NoExcludedSlots) else None;
            && t.enabled == (s.enabled && failure.None?)
            && t.error == (if s.error.Some? then s.error else failure)
            && t == s.(enabled := t.enabled, error := t.error, raises := t.raises, excluded := t.excluded)
  {
    hide HashName, FindIdFrom, HashedLength;
    var n := |ids|;
    assert n < |s.excluded| ==> s.excluded[n] == 0;
    assert FindId(s.excluded, 0).None? <==> n >= |s.excluded|;
  }

  /**
   * In every legal run, excluding a task fails, and with it tracing, exactly when the name is empty or as many ids
   * have been excluded as the list has entries. Nothing changes but the list.
   */
  lemma ExclusionIsExact(cfg: Config, ops: seq<Op>, name: Bytes)
    requires Legal(cfg, ops)
    ensures var s, t := Run(cfg, ops), Run(cfg, ops + [Exclude(name)]);
            var failure := if HashedLength(name) == 0 then Some(EmptyName)
                           else if |IdsInOrder(cfg, ops)| >= cfg.maxExcluded then Some(NoExcludedSlots) else None;
            && t.enabled == (s.enabled && failure.None?)
            && t.error == (if s.error.Some? then s.error else failure)
            && t == s.(enabled := t.enabled, error := t.error, raises := t.raises, excluded := t.excluded)
            && HoldsFirst(t.excluded, IdsInOrder(cfg, ops) + if HashName(name) == 0 then [] else [HashName(name)])
  {
    RunExtends(cfg, ops, Exclude(name));
    ListHoldsFirstIds(cfg, ops);
    hide Run, Legal, HoldsFirst, IdsInOrder, ExcludeTask, HashName, HashedLength;
    assert Step(cfg, Run(cfg, ops), Exclude(name)) == ExcludeTask(Run(cfg, ops), name);
    hide Step;
    ExcludeOutcome(Run(cfg, ops), name, IdsInOrder(cfg, ops));
    ExcludeStores(Run(cfg, ops), name, IdsInOrder(cfg, ops));
  }

  lemma ErrorFreeBefore(cfg: Config, s: State, k: Kernel, op: Op)
    requires RegistryInv(cfg, s, k) && Step(cfg, s, op).error.None?
    ensures s.error.None?
  {
    if op.Enable? {
      EnableLatches(cfg, s, op.caller, op.ioTask, op.ioEnv);
    } else {
      StepLatches(cfg, s, k, op);
    }
    hide Step, RegistryInv;
  }

  /** The first free slot is the one after the tasks. */
  lemma FreeAfterTasks(slots: seq<Slot>, tasks: seq<Handle>)
    requires SlotsAre(slots, tasks)
    ensures FindSlot(slots, NULL) == if |tasks| == |slots| then None else Some(|tasks|)
  {
    hide FindSlotFrom;
    if |tasks| < |slots| {
      assert slots[|tasks|].tcb == NULL;
    }
  }

  lemma CreateDecides(cfg: Config, ops: seq<Op>, op: Op)
    requires Legal(cfg, ops) && op.Create? && Allowed(cfg, KernelRun(ops), op)
    requires Step(cfg, Run(cfg, ops), op).error.None?
    requires SlotsAre(Run(cfg, ops).slots, TasksToTrace(cfg, ops))
    ensures var tasks := TasksToTrace(cfg, ops);
            SlotsAre(Step(cfg, Run(cfg, ops), op).slots,
                     if ToTrace(cfg, ops, op.name) then tasks + [op.task] else tasks)
  {
    var s, k, tasks := Run(cfg, ops), KernelRun(ops), TasksToTrace(cfg, ops);
    var t := Step(cfg, s, op);
    ReachableRegistry(cfg, ops);
    ErrorFreeBefore(cfg, s, k, op);
    ListImplementsSet(cfg, ops);
    hide Legal, Run, KernelRun, TasksToTrace, Register, HashName, SlotsAre;
    if s.enabled {
      RegisterEffect(cfg, s, op.task, op.name, op.priority, op.env);
      DecisionFollows(s, t, op.task, HashName(op.name), op.priority, tasks);
    }
  }

  lemma DecisionFollows(s: State, t: State, task: Handle, id: bv16, priority: nat, tasks: seq<Handle>)
    requires SlotsAre(s.slots, tasks) && t.error.None? && task != NULL
    requires LeftUntraced(s, t, task) || (id !in s.excluded && Orphaned(s, t, task, id))
             || (id !in s.excluded && Installed(s, t, task, id, priority))
    requires id != 0 && id !in s.excluded ==> Installed(s, t, task, id, priority)
    ensures SlotsAre(t.slots, if id != 0 && id !in s.excluded then tasks + [task] else tasks)
  {
    FreeAfterTasks(s.slots, tasks);
    hide FindSlot, Filter;
  }

  /**
   * In error-free runs the table refines the set: for every interleaving of exclusions and creations the
   * occupied slots are exactly the tasks to be traced, in the order of their creation.
   */
  lemma {:induction false} TableRefinesSet(cfg: Config, ops: seq<Op>)
    requires Legal(cfg, ops) && Run(cfg, ops).error.None?
    ensures SlotsAre(Run(cfg, ops).slots, TasksToTrace(cfg, ops))
  {
    if ops == [] {
    } else {
      var front, op := ops[..|ops| - 1], ops[|ops| - 1];
      var s, k := Run(cfg, front), KernelRun(front);
      ReachableRegistry(cfg, front);
      ErrorFreeBefore(cfg, s, k, op);
      TableRefinesSet(cfg, front);
      hide RegistryInv, Allowed, KernelRun;
      if op.Create? {
        CreateDecides(cfg, front, op);
      } else {
        StepSame(cfg, s, k, op);
        hide Step;
        assert forall i :: 0 <= i < |s.slots| ==> SameSlot(s.slots[i], Run(cfg, ops).slots[i]);
        assert TasksToTrace(cfg, ops) == TasksToTrace(cfg, front);
      }
    }
  }

  /** A task whose name hashes to 0 gets no probe, whatever the list holds and whatever has gone wrong. */
  lemma ZeroIdIsNeverTraced(cfg: Config, s: State, op: Op)
    requires op.Create? && op.task != NULL && HashName(op.name) == 0 && SlotsInOrder(s.slots)
    ensures var t := Step(cfg, s, op); t.slots == s.slots && t.probes == s.probes
  {
    if s.enabled {
      RegisterEffect(cfg, s, op.task, op.name, op.priority, op.env);
    } else {
      DisabledCreate(cfg, s, op);
    }
    hide Step, HashName, FindSlot, Filter, ProbeId, Register;
  }

  /** A name that ends in the hash of what precedes it, high byte first, is such a name. */
  lemma OwnHashGivesZeroId(stem: Bytes)
    requires 1 <= |stem| <= 253
    ensures HashName(stem + [HighByte(HashBytes(stem)), LowByte(HashBytes(stem))]) == 0
  {
    hide *;
    Residue(stem);
    ShortName(stem + [HighByte(HashBytes(stem)), LowByte(HashBytes(stem))]);
  }
}
