/** Who the backend thinks is running, over whole runs. */
module Attribution {
  import opened Options
  import opened ProbeIdHash
  import opened Trace
  import opened Registry
  import opened Runs

  // ----- Who has run -----

  /** The tasks switched in so far whose filter passed, in order. */
  ghost function TracedIns(cfg: Config, ops: seq<Op>): seq<Handle> {
    if ops == [] then []
    else
      var front, op := ops[..|ops| - 1], ops[|ops| - 1];
      TracedIns(cfg, front)
      + if op.SwitchedIn? && Gate(Run(cfg, front), op.task) then [op.task] else []
  }

  /** A sequence without immediate repetitions. */
  ghost function Collapse(hs: seq<Handle>): (r: seq<Handle>)
    ensures forall i :: 0 < i < |r| ==> r[i - 1] != r[i]
    ensures forall h :: h in r <==> h in hs
  {
    if hs == [] then []
    else
      var r := Collapse(hs[..|hs| - 1]);
      if r != [] && r[|r| - 1] == hs[|hs| - 1] then r else r + [hs[|hs| - 1]]
  }

  /** The traced tasks in the order they took over from each other. */
  ghost function Chain(cfg: Config, ops: seq<Op>): seq<Handle> {
    Collapse(TracedIns(cfg, ops))
  }

  ghost function Extend(c: seq<Handle>, task: Handle): seq<Handle> {
    if c != [] && c[|c| - 1] == task then c else c + [task]
  }

  lemma ChainStep(cfg: Config, ops: seq<Op>, op: Op)
    ensures Chain(cfg, ops + [op]) ==
            if op.SwitchedIn? && Gate(Run(cfg, ops), op.task) then Extend(Chain(cfg, ops), op.task) else Chain(cfg, ops)
  {
    assert (ops + [op])[..|ops|] == ops;
    var ins := TracedIns(cfg, ops);
    if op.SwitchedIn? && Gate(Run(cfg, ops), op.task) {
      assert TracedIns(cfg, ops + [op]) == ins + [op.task];
      assert (ins + [op.task])[..|ins|] == ins;
    } else {
      assert TracedIns(cfg, ops + [op]) == ins;
    }
  }

  // ----- Attribution -----

  /** The two remembered tasks are the last two of the chain, and a running traced task is the last one. */
  ghost predicate AttributionInv(s: State, k: Kernel, c: seq<Handle>) {
    && s.current == (if c == [] then NULL else c[|c| - 1])
    && s.previous == (if |c| < 2 then NULL else c[|c| - 2])
    && (forall h :: h in c ==> h in s.numbers && Filter(s, h) != 0)
    && (forall i :: 0 < i < |c| ==> c[i - 1] != c[i])
    && (!k.started ==> c == [] && k.running == NULL)
    && (k.running != NULL ==>
          (k.running in k.names || k.running in k.reserved) && (Gate(s, k.running) ==> s.current == k.running))
  }

  lemma CreateKeepsCurrent(cfg: Config, s: State, task: Handle, name: Bytes, priority: nat, env: CreateEnv)
    requires SlotsInOrder(s.slots) && task != NULL
    ensures var t := Register(cfg, s, task, name, priority, env); t.current == s.current && t.previous == s.previous
  {
    if s.enabled {
      RegisterEffect(cfg, s, task, name, priority, env);
    }
    hide *;
  }

  lemma EnableKeepsCurrent(cfg: Config, s: State, caller: Handle, created: Handle, env: CreateEnv)
    ensures var t := EnableTracing(cfg, s, caller, created, env);
            && t.current == s.current && t.previous == s.previous && t.probes == s.probes && t.slots == s.slots
            && t.merges == s.merges && t.numbers == s.numbers
  {
    hide HashName, FindId;
  }

  /** Steps other than a switch in leave the remembered tasks. */
  lemma StepKeepsCurrent(cfg: Config, s: State, k: Kernel, op: Op)
    requires RegistryInv(cfg, s, k) && Allowed(cfg, k, op) && !op.SwitchedIn?
    ensures var t := Step(cfg, s, op); t.current == s.current && t.previous == s.previous
  {
    hide Register, EnableTracing, Gate, FindSlot, FindId, HashName, HasRoom, Reaches, ProbeId, SlotsInOrder, SlotInv;
    if op.Create? {
      CreateKeepsCurrent(cfg, s, op.task, op.name, op.priority, op.env);
    } else if op.Enable? {
      EnableKeepsCurrent(cfg, s, op.caller, op.ioTask, op.ioEnv);
    }
  }

  /** No step changes the filter or id of a task the kernel knows already. */
  lemma StepKeepsNumbers(cfg: Config, s: State, k: Kernel, op: Op, h: Handle)
    requires RegistryInv(cfg, s, k) && Allowed(cfg, k, op) && (h in k.names || h in k.reserved)
    ensures var t := Step(cfg, s, op);
            && Filter(t, h) == Filter(s, h) && ProbeId(t, h) == ProbeId(s, h)
            && (h in s.numbers ==> h in t.numbers)
            && Gate(t, h) == Gate(s, h)
  {
    var t := Step(cfg, s, op);
    if op.Create? {
      if s.enabled {
        RegisterEffect(cfg, s, op.task, op.name, op.priority, op.env);
      }
    } else {
      StepSame(cfg, s, k, op);
      SameNumbers(s, t, h);
    }
    hide Filter, ProbeId, Register, HashName;
    GateIsFilter(s, h);
    GateIsFilter(t, h);
  }

  lemma CallsKeepCurrent(s: State, e: Event, ok: bool)
    ensures LogEvent(s, e, ok).current == s.current && LogEvent(s, e, ok).previous == s.previous
    ensures MergeSnapshot(s, ok).current == s.current && MergeSnapshot(s, ok).previous == s.previous
  {
    hide FindSlot;
  }

  lemma SwitchInCurrent(s: State, task: Handle, priority: nat, mergeOk: bool, recordOk: bool)
    ensures var t := SwitchIn(s, task, priority, mergeOk, recordOk);
            if Gate(s, task) && s.current != task then t.current == task && t.previous == s.current
            else t.current == s.current && t.previous == s.previous
    ensures Gate(s, task) ==> SwitchIn(s, task, priority, mergeOk, recordOk).current == task
  {
    var e := Event(TASK_SWITCHED_IN, Some(priority));
    var s1 := SwitchedTcb(s, task);
    CallsKeepCurrent(s1, e, mergeOk);
    CallsKeepCurrent(if s.current != task then MergeSnapshot(s1, mergeOk) else s1, e, recordOk);
    hide Gate, LogEvent, MergeSnapshot;
  }

  lemma NotNull(cfg: Config, s: State, k: Kernel, task: Handle)
    requires RegistryInv(cfg, s, k) && Gate(s, task)
    ensures task != NULL
  {
    KnownIfGated(s, task);
  }

  lemma StepKeepsAttribution(cfg: Config, s: State, k: Kernel, op: Op, c: seq<Handle>)
    requires RegistryInv(cfg, s, k) && AttributionInv(s, k, c) && Allowed(cfg, k, op)
    ensures AttributionInv(Step(cfg, s, op), KernelStep(k, op),
                           if op.SwitchedIn? && Gate(s, op.task) then Extend(c, op.task) else c)
  {
    hide Step, SwitchIn, Gate, Filter, RegistryInv, HashName;
    var t, l := Step(cfg, s, op), KernelStep(k, op);
    forall h | h in c || (h == l.running != NULL)
      ensures Filter(t, h) == Filter(s, h) && Gate(t, h) == Gate(s, h) && (h in s.numbers ==> h in t.numbers)
    {
      KnownTask(cfg, s, k, c, op, h);
      StepKeepsNumbers(cfg, s, k, op, h);
    }
    if op.SwitchedIn? {
      StepIsSwitchIn(cfg, s, op);
      SwitchInCurrent(s, op.task, op.priority, op.mergeOk, op.recordOk);
      if Gate(s, op.task) {
        GateIsFilter(s, op.task);
        KnownIfGated(s, op.task);
        NotNull(cfg, s, k, op.task);
      }
    } else {
      StepKeepsCurrent(cfg, s, k, op);
    }
  }

  lemma StepIsSwitchIn(cfg: Config, s: State, op: Op)
    requires op.SwitchedIn?
    ensures Step(cfg, s, op) == SwitchIn(s, op.task, op.priority, op.mergeOk, op.recordOk)
  {
    hide SwitchIn;
  }

  /** The kernel knows the tasks of the chain, and the one that runs after a step. */
  lemma KnownTask(cfg: Config, s: State, k: Kernel, c: seq<Handle>, op: Op, h: Handle)
    requires RegistryInv(cfg, s, k) && AttributionInv(s, k, c) && Allowed(cfg, k, op)
    requires h in c || h == KernelStep(k, op).running != NULL
    ensures h in k.names || h in k.reserved
  {
    hide SlotInv, SlotsInOrder, FindSlot, HashName;
    if h in c {
      assert h in s.numbers;
    } else if !op.SwitchedIn? {
      assert h == k.running;
    }
  }

  lemma KnownIfGated(s: State, task: Handle)
    requires Gate(s, task)
    ensures task in s.numbers
  {
    GateIsFilter(s, task);
    if task !in s.numbers {
      FilterOfUnknown(s, task);
    }
  }

  lemma {:induction false} ReachableAttribution(cfg: Config, ops: seq<Op>)
    requires Legal(cfg, ops)
    ensures AttributionInv(Run(cfg, ops), KernelRun(ops), Chain(cfg, ops))
  {
    if ops == [] {
    } else {
      hide *;
      var front, op := ops[..|ops| - 1], ops[|ops| - 1];
      LastStep(cfg, ops);
      ReachableAttribution(cfg, front);
      ReachableRegistry(cfg, front);
      StepKeepsAttribution(cfg, Run(cfg, front), KernelRun(front), op, Chain(cfg, front));
      ChainStep(cfg, front, op);
    }
  }

  lemma RunningIsLast(s: State, k: Kernel, c: seq<Handle>)
    requires AttributionInv(s, k, c) && k.running != NULL && Gate(s, k.running)
    ensures c != [] && s.current == k.running == c[|c| - 1]
  {
  }

  /** A task that does not pass the filter is not the remembered one. */
  lemma NotCurrent(s: State, k: Kernel, c: seq<Handle>, task: Handle)
    requires AttributionInv(s, k, c) && !Gate(s, task)
    ensures task == NULL || s.current != task
  {
    GateIsFilter(s, task);
  }
}
