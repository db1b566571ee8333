/** Excluded tasks leave no trace: erasing all their steps from a run changes nothing but their own numbers. */
module Invisibility {
  import opened Options
  import opened ProbeIdHash
  import opened Port
  import opened Trace
  import opened Registry
  import opened Attribution
  import opened Causality

  /** The step is one of a task in `hidden`. */
  predicate StepOf(op: Op, hidden: set<Handle>) {
    match op
    case Create(task, _, _, _) => task in hidden
    case SwitchedIn(task, _, _, _) => task in hidden
    case SwitchedOut(task, _, _) => task in hidden
    case Hook(task, _, _) => task in hidden
    case Process(task, _) => task in hidden
    case _ => false
  }

  function Erase(ops: seq<Op>, hidden: set<Handle>): seq<Op> {
    if ops == [] then []
    else
      Erase(ops[..|ops| - 1], hidden) + if StepOf(ops[|ops| - 1], hidden) then [] else [ops[|ops| - 1]]
  }

  /** Creating the task is turned down: tracing is off, or the id of its name, which is not empty, is on the list. */
  ghost predicate TurnedDown(s: State, op: Op)
    requires op.Create?
  {
    !s.enabled || (HashedLength(op.name) != 0 && HashName(op.name) in s.excluded)
  }

  /** Every creation of a hidden task in the run is turned down. */
  ghost predicate Excluded(cfg: Config, ops: seq<Op>, hidden: set<Handle>) {
    ops != [] ==>
      && Excluded(cfg, ops[..|ops| - 1], hidden)
      && (ops[|ops| - 1].Create? && ops[|ops| - 1].task in hidden ==>
            TurnedDown(Run(cfg, ops[..|ops| - 1]), ops[|ops| - 1]))
  }

  /** The states differ only in the numbers of hidden tasks, which no filter passes and no slot names. */
  ghost predicate Similar(s: State, t: State, hidden: set<Handle>) {
    && t == s.(numbers := t.numbers)
    && (forall h :: h !in hidden ==> Number(t, h) == Number(s, h))
    && (forall h :: h in hidden ==> Filter(t, h) == 0 && Filter(s, h) == 0)
    && (forall i :: 0 <= i < |s.slots| ==> s.slots[i].tcb !in hidden)
  }

  lemma HiddenCreate(cfg: Config, s: State, op: Op)
    requires op.Create? && op.task != NULL && TurnedDown(s, op)
    ensures var t := Step(cfg, s, op);
            && t == s.(numbers := t.numbers)
            && (forall h :: h != op.task ==> Number(t, h) == Number(s, h))
            && (Filter(s, op.task) == 0 ==> Filter(t, op.task) == 0)
  {
    if s.enabled {
      IdentifiedEffect(s, op.task, op.name);
      RegisterUnfolds(cfg, s, op.task, op.name, op.priority, op.env);
      hide ReadUpper16, ReadLower16, WriteLower16, WriteUpper16, HashName, Register;
    }
  }

  lemma HiddenStep(cfg: Config, s: State, t: State, op: Op, hidden: set<Handle>)
    requires Similar(s, t, hidden) && StepOf(op, hidden) && NULL !in hidden
    requires op.Create? ==> TurnedDown(s, op)
    ensures Similar(Step(cfg, s, op), t, hidden)
  {
    hide Filter;
    if op.Create? {
      HiddenCreate(cfg, s, op);
      var u := Step(cfg, s, op);
      forall h | h in hidden
        ensures Filter(u, h) == 0
      {
        if h != op.task {
          SameNumberSameFilter(s, u, h);
        }
      }
    } else if op.Process? {
      hide Number;
      assert FindSlot(s.slots, op.task) == None;
    } else {
      GateIsFilter(s, op.task);
      hide Gate, LogEvent;
    }
  }

  lemma SameNumberSameFilter(s: State, t: State, h: Handle)
    requires Number(t, h) == Number(s, h)
    ensures Filter(t, h) == Filter(s, h) && ProbeId(t, h) == ProbeId(s, h) && Gate(t, h) == Gate(s, h)
  {
    hide ReadUpper16, ReadLower16;
  }

  // ----- Steps of other tasks do not look at the hidden numbers -----

  lemma LogIgnores(s: State, n: map<Handle, bv32>, e: Event, ok: bool)
    ensures LogEvent(s.(numbers := n), e, ok) == LogEvent(s, e, ok).(numbers := n)
  {
    hide FindSlot;
  }

  lemma MergeIntoIgnores(s: State, n: map<Handle, bv32>, probe: Option<nat>, snapshot: Snapshot)
    ensures MergeInto(s.(numbers := n), probe, snapshot) == MergeInto(s, probe, snapshot).(numbers := n)
  {
  }

  lemma MergeIgnores(s: State, n: map<Handle, bv32>, ok: bool)
    ensures MergeSnapshot(s.(numbers := n), ok) == MergeSnapshot(s, ok).(numbers := n)
  {
    hide FindSlot, MergeInto;
    var i, j := FindSlot(s.slots, s.current), FindSlot(s.slots, s.previous);
    if i.Some? && j.Some? {
      MergeIntoIgnores(s, n, s.slots[i.value].probe, s.slots[j.value].snapshot);
    }
  }

  lemma ProduceIgnores(s: State, n: map<Handle, bv32>, ok: bool)
    ensures ProduceSnapshot(s.(numbers := n), ok) == ProduceSnapshot(s, ok).(numbers := n)
  {
    hide FindSlot;
  }

  lemma ProcessIgnores(cfg: Config, s: State, n: map<Handle, bv32>, task: Handle, ok: bool)
    ensures ProcessMessages(cfg, s.(numbers := n), task, ok) == ProcessMessages(cfg, s, task, ok).(numbers := n)
  {
    hide FindSlot;
  }

  lemma EnableIgnores(cfg: Config, s: State, n: map<Handle, bv32>, caller: Handle, created: Handle, env: CreateEnv)
    ensures EnableTracing(cfg, s.(numbers := n), caller, created, env)
         == EnableTracing(cfg, s, caller, created, env).(numbers := n)
  {
    EnableUnfolds(cfg, s, caller, created, env);
    EnableUnfolds(cfg, s.(numbers := n), caller, created, env);
    ExcludeIgnores(s, n, cfg.ioTaskName);
    hide ExcludeTask, EnableTracing;
  }

  lemma ExcludeIgnores(s: State, n: map<Handle, bv32>, name: Bytes)
    ensures ExcludeTask(s.(numbers := n), name) == ExcludeTask(s, name).(numbers := n)
  {
    hide FindId, HashName;
  }

  lemma SwitchInIgnores(s: State, n: map<Handle, bv32>, task: Handle, priority: nat, mergeOk: bool, recordOk: bool)
    requires Gate(s.(numbers := n), task) == Gate(s, task)
    ensures SwitchIn(s.(numbers := n), task, priority, mergeOk, recordOk)
         == SwitchIn(s, task, priority, mergeOk, recordOk).(numbers := n)
  {
    hide Gate, LogEvent, MergeSnapshot;
    var s1 := SwitchedTcb(s, task);
    var s2 := if s.current != task then MergeSnapshot(s1, mergeOk) else s1;
    MergeIgnores(s1, n, mergeOk);
    LogIgnores(s2, n, Event(TASK_SWITCHED_IN, Some(priority)), recordOk);
  }

  lemma SwitchOutIgnores(s: State, n: map<Handle, bv32>, task: Handle, recordOk: bool, snapshotOk: bool)
    requires Gate(s.(numbers := n), task) == Gate(s, task)
    ensures SwitchOut(s.(numbers := n), task, recordOk, snapshotOk)
         == SwitchOut(s, task, recordOk, snapshotOk).(numbers := n)
  {
    hide Gate, LogEvent, ProduceSnapshot;
    var e := Event(TASK_SWITCHED_OUT, None);
    LogIgnores(s, n, e, recordOk);
    ProduceIgnores(LogEvent(s, e, recordOk), n, snapshotOk);
  }

  lemma RouteIgnores(cfg: Config, s: State, n: map<Handle, bv32>, m: Message, to: Option<Destination>)
    requires forall i :: 0 <= i < |s.slots| ==> ProbeId(s.(numbers := n), s.slots[i].tcb) == ProbeId(s, s.slots[i].tcb)
    ensures Route(cfg, s.(numbers := n), m, to) == Route(cfg, s, m, to).(numbers := n)
  {
    hide ProbeId, RouteToSlot;
    assert Route(cfg, s.(numbers := n), m, to).slots == Route(cfg, s, m, to).slots;
  }

  // ----- Registration of another task -----

  lemma AllocIgnores(cfg: Config, s: State, n: map<Handle, bv32>, id: bv16, env: CreateEnv)
    ensures AllocProbe(cfg, s.(numbers := n), id, env).0 == AllocProbe(cfg, s, id, env).0.(numbers := n)
    ensures AllocProbe(cfg, s.(numbers := n), id, env).1 == AllocProbe(cfg, s, id, env).1
    ensures AllocProbe(cfg, s, id, env).0.numbers == s.numbers
  {
  }

  lemma AddIgnores(cfg: Config, s: State, n: map<Handle, bv32>, task: Handle, probe: nat, env: CreateEnv)
    ensures AddTcbProbe(cfg, s.(numbers := n), task, probe, env) == AddTcbProbe(cfg, s, task, probe, env).(numbers := n)
    ensures AddTcbProbe(cfg, s, task, probe, env).numbers == s.numbers
  {
    hide FindSlot;
  }

  /** The slots after a registration name the tasks they named before, or the new one. */
  lemma AddNames(cfg: Config, s: State, task: Handle, probe: nat, env: CreateEnv)
    ensures var t := AddTcbProbe(cfg, s, task, probe, env);
            && |t.slots| == |s.slots|
            && forall i :: 0 <= i < |s.slots| ==> t.slots[i].tcb == s.slots[i].tcb || t.slots[i].tcb == task
  {
    hide FindSlotFrom;
  }

  /** Setting the number of a task that is not hidden keeps states similar. */
  lemma SetKeepsSimilar(s: State, t: State, hidden: set<Handle>, task: Handle, word: bv32)
    requires Similar(s, t, hidden) && task !in hidden && task != NULL
    ensures Similar(SetNumber(s, task, word), SetNumber(t, task, word), hidden)
  {
    var s', t' := SetNumber(s, task, word), SetNumber(t, task, word);
    forall h | h in hidden
      ensures Filter(s', h) == 0 && Filter(t', h) == 0
    {
      SameNumberSameFilter(s, s', h);
      SameNumberSameFilter(t, t', h);
    }
    hide Filter;
  }

  lemma SetFilterKeepsSimilar(s: State, t: State, hidden: set<Handle>, task: Handle, filter: bv16)
    requires Similar(s, t, hidden) && task !in hidden && task != NULL
    ensures Similar(SetFilter(s, task, filter), SetFilter(t, task, filter), hidden)
  {
    hide WriteUpper16, Filter, SetNumber;
    assert Number(s, task) == Number(t, task);
    SetKeepsSimilar(s, t, hidden, task, WriteUpper16(Number(s, task), filter));
  }

  lemma SetProbeIdKeepsSimilar(s: State, t: State, hidden: set<Handle>, task: Handle, id: bv16)
    requires Similar(s, t, hidden) && task !in hidden && task != NULL
    ensures Similar(SetProbeId(s, task, id), SetProbeId(t, task, id), hidden)
  {
    hide WriteLower16, Filter, SetNumber;
    assert Number(s, task) == Number(t, task);
    SetKeepsSimilar(s, t, hidden, task, WriteLower16(Number(s, task), id));
  }

  /** A change that does not look at the numbers and names no hidden task. */
  lemma CarrySimilar(s: State, t: State, s': State, t': State, hidden: set<Handle>)
    requires Similar(s, t, hidden) && s'.numbers == s.numbers && t' == s'.(numbers := t.numbers)
    requires forall i :: 0 <= i < |s'.slots| ==> s'.slots[i].tcb !in hidden
    ensures Similar(s', t', hidden)
  {
    forall h
      ensures Number(s', h) == Number(s, h) && Filter(s', h) == Filter(s, h)
      ensures Number(t', h) == Number(t, h) && Filter(t', h) == Filter(t, h)
    {
      SameNumberSameFilter(s, s', h);
      SameNumberSameFilter(t, t', h);
    }
    hide Filter, Number;
  }

  lemma IdentifiedSimilar(s: State, t: State, hidden: set<Handle>, task: Handle, name: Bytes)
    requires Similar(s, t, hidden) && task !in hidden && task != NULL
    ensures Similar(Identified(s, task, name), Identified(t, task, name), hidden)
  {
    var s1, t1 := HashOrRaise(s, name), HashOrRaise(t, name);
    CarrySimilar(s, t, s1, t1, hidden);
    hide HashName, Similar, SetFilter, SetProbeId, HashOrRaise;
    SetProbeIdKeepsSimilar(s1, t1, hidden, task, HashName(name));
    SetFilterKeepsSimilar(SetProbeId(s1, task, HashName(name)), SetProbeId(t1, task, HashName(name)), hidden, task, 0);
  }

  lemma RecordIgnores(s: State, n: map<Handle, bv32>, probe: Option<nat>, e: Event)
    ensures Record(s.(numbers := n), probe, e) == Record(s, probe, e).(numbers := n)
    ensures Record(s, probe, e).numbers == s.numbers && Record(s, probe, e).slots == s.slots
  {
  }

  lemma AllocKeepsSlots(cfg: Config, s: State, id: bv16, env: CreateEnv)
    ensures AllocProbe(cfg, s, id, env).0.slots == s.slots
  {
  }

  /** What follows the allocation of a probe. */
  ghost function Install(cfg: Config, s: State, task: Handle, probe: nat, priority: nat, env: CreateEnv): State {
    var t := SetFilter(AddTcbProbe(cfg, s, task, probe, env), task, 0xFFFF);
    if env.record then Record(t, Some(probe), Event(TASK_CREATE, Some(priority))) else Abort(t, CreateEventFailed)
  }

  lemma InstallSimilar(cfg: Config, s: State, t: State, hidden: set<Handle>, task: Handle, probe: nat, priority: nat,
                       env: CreateEnv)
    requires Similar(s, t, hidden) && task !in hidden && task != NULL
    ensures Similar(Install(cfg, s, task, probe, priority, env), Install(cfg, t, task, probe, priority, env), hidden)
  {
    var s3, t3 := AddTcbProbe(cfg, s, task, probe, env), AddTcbProbe(cfg, t, task, probe, env);
    AddIgnores(cfg, s, t.numbers, task, probe, env);
    AddNames(cfg, s, task, probe, env);
    hide AddTcbProbe, SetFilter, Record, Filter;
    CarrySimilar(s, t, s3, t3, hidden);
    var s4, t4 := SetFilter(s3, task, 0xFFFF), SetFilter(t3, task, 0xFFFF);
    SetFilterKeepsSimilar(s3, t3, hidden, task, 0xFFFF);
    if env.record {
      var e := Event(TASK_CREATE, Some(priority));
      RecordIgnores(s4, t4.numbers, Some(probe), e);
      CarrySimilar(s4, t4, Record(s4, Some(probe), e), Record(t4, Some(probe), e), hidden);
    } else {
      CarrySimilar(s4, t4, Abort(s4, CreateEventFailed), Abort(t4, CreateEventFailed), hidden);
    }
  }

  lemma RegisterInstalls(cfg: Config, s: State, task: Handle, name: Bytes, priority: nat, env: CreateEnv)
    requires s.enabled
    ensures var s1 := Identified(s, task, name);
            var (s2, probe) := AllocProbe(cfg, s1, HashName(name), env);
            Register(cfg, s, task, name, priority, env) ==
            if HashName(name) in s1.excluded then s1
            else if probe.None? then s2
            else Install(cfg, s2, task, probe.value, priority, env)
  {
    RegisterUnfolds(cfg, s, task, name, priority, env);
    hide Register, HashName, Identified, AllocProbe, AddTcbProbe, SetFilter, Record;
  }

  lemma CreateSimilar(cfg: Config, s: State, t: State, op: Op, hidden: set<Handle>)
    requires op.Create? && Similar(s, t, hidden) && op.task !in hidden && op.task != NULL
    ensures Similar(Step(cfg, s, op), Step(cfg, t, op), hidden)
  {
    var task, name, env, id := op.task, op.name, op.env, HashName(op.name);
    if s.enabled {
      RegisterInstalls(cfg, s, task, name, op.priority, env);
      RegisterInstalls(cfg, t, task, name, op.priority, env);
      var s1, t1 := Identified(s, task, name), Identified(t, task, name);
      IdentifiedSimilar(s, t, hidden, task, name);
      hide Register, HashName, Identified, Install, Filter;
      if id !in s1.excluded {
        var (s2, probe) := AllocProbe(cfg, s1, id, env);
        var (t2, other) := AllocProbe(cfg, t1, id, env);
        AllocIgnores(cfg, s1, t1.numbers, id, env);
        AllocKeepsSlots(cfg, s1, id, env);
        hide AllocProbe;
        CarrySimilar(s1, t1, s2, t2, hidden);
        if probe.Some? {
          InstallSimilar(cfg, s2, t2, hidden, task, probe.value, op.priority, env);
        }
      }
    }
  }

  // ----- The theorem -----

  /** No step but a creation changes which tasks the slots name. */
  lemma NamesKept(cfg: Config, s: State, op: Op)
    requires !op.Create?
    ensures var t := Step(cfg, s, op);
            && t.numbers == s.numbers && |t.slots| == |s.slots|
            && forall i :: 0 <= i < |s.slots| ==> t.slots[i].tcb == s.slots[i].tcb
  {
    hide FindId, HashName, EnableTracing, SwitchIn, SwitchOut, GatedLog, Route, ProcessMessages;
    match op
    case Enable(caller, ioTask, env) => EnableKeepsCurrent(cfg, s, caller, ioTask, env);
    case SwitchedIn(task, priority, mergeOk, recordOk) => SwitchInSame(s, task, priority, mergeOk, recordOk);
    case SwitchedOut(task, recordOk, snapshotOk) => SwitchOutNames(s, task, recordOk, snapshotOk);
    case Hook(task, e, ok) => HookSame(s, task, e, ok);
    case Deliver(m, to) => RouteSame(cfg, s, m, to);
    case Process(task, ok) => ProcessSame(cfg, s, task, ok);
    case _ =>
  }

  lemma SwitchOutNames(s: State, task: Handle, recordOk: bool, snapshotOk: bool)
    ensures var t := SwitchOut(s, task, recordOk, snapshotOk);
            && t.numbers == s.numbers && |t.slots| == |s.slots|
            && forall i :: 0 <= i < |s.slots| ==> t.slots[i].tcb == s.slots[i].tcb
  {
    hide Gate, FindSlotFrom;
  }

  lemma OtherStep(cfg: Config, s: State, t: State, op: Op, hidden: set<Handle>)
    requires Similar(s, t, hidden) && !StepOf(op, hidden) && NULL !in hidden
    ensures Similar(Step(cfg, s, op), Step(cfg, t, op), hidden)
  {
    if op.Create? {
      if op.task != NULL {
        CreateSimilar(cfg, s, t, op, hidden);
      }
    } else {
      NamesKept(cfg, s, op);
      OtherStepIgnores(cfg, s, t, op, hidden);
      hide Step, Filter, Number;
      CarrySimilar(s, t, Step(cfg, s, op), Step(cfg, t, op), hidden);
    }
  }

  lemma OtherStepIgnores(cfg: Config, s: State, t: State, op: Op, hidden: set<Handle>)
    requires Similar(s, t, hidden) && !StepOf(op, hidden) && !op.Create?
    ensures Step(cfg, t, op) == Step(cfg, s, op).(numbers := t.numbers)
  {
    var n := t.numbers;
    forall h | h !in hidden
      ensures Gate(t, h) == Gate(s, h) && ProbeId(t, h) == ProbeId(s, h)
    {
      SameNumberSameFilter(s, t, h);
    }
    hide Gate, ProbeId, Filter, Number, SwitchIn, SwitchOut, LogEvent, Route, ProcessMessages, EnableTracing,
         ExcludeTask;
    match op
    case Enable(caller, ioTask, env) => EnableIgnores(cfg, s, n, caller, ioTask, env);
    case Disable =>
    case Exclude(name) => ExcludeIgnores(s, n, name);
    case SwitchedIn(task, priority, mergeOk, recordOk) => SwitchInIgnores(s, n, task, priority, mergeOk, recordOk);
    case SwitchedOut(task, recordOk, snapshotOk) => SwitchOutIgnores(s, n, task, recordOk, snapshotOk);
    case Hook(task, e, ok) => LogIgnores(s, n, e, ok);
    case Deliver(m, to) => RouteIgnores(cfg, s, n, m, to);
    case Process(task, ok) => ProcessIgnores(cfg, s, n, task, ok);
    case IoFailure(e) =>
  }

  /**
   * Erasing every step of excluded tasks from a run leaves the same table, snapshots, storage index,
   * remembered tasks, probes, merges, errors and critical sections.
   */
  lemma {:induction false} ExcludedTasksAreInvisible(cfg: Config, ops: seq<Op>, hidden: set<Handle>)
    requires NULL !in hidden && Excluded(cfg, ops, hidden)
    ensures Similar(Run(cfg, ops), Run(cfg, Erase(ops, hidden)), hidden)
  {
    if ops == [] {
      var s := Init(cfg);
      forall h
        ensures Filter(s, h) == 0
      {
        FilterOfUnknown(s, h);
      }
      hide Filter;
    } else {
      var front, op := ops[..|ops| - 1], ops[|ops| - 1];
      ExcludedTasksAreInvisible(cfg, front, hidden);
      var s, t := Run(cfg, front), Run(cfg, Erase(front, hidden));
      hide Step, Similar, TurnedDown;
      if StepOf(op, hidden) {
        HiddenStep(cfg, s, t, op, hidden);
        assert Erase(ops, hidden) == Erase(front, hidden);
      } else {
        OtherStep(cfg, s, t, op, hidden);
        var rest := Erase(front, hidden);
        assert Erase(ops, hidden) == rest + [op];
        assert (rest + [op])[..|rest|] == rest;
      }
    }
  }

  // ----- The erased run is a run -----

  ghost predicate ErasedKernel(k: Kernel, l: Kernel, hidden: set<Handle>) {
    && (forall h :: h in l.names <==> h in k.names && h !in hidden)
    && l.reserved == k.reserved
    && l.running == (if k.running in hidden then NULL else k.running)
    && (l.started ==> k.started)
  }

  lemma ErasedStep(cfg: Config, k: Kernel, l: Kernel, op: Op, hidden: set<Handle>)
    requires NULL !in hidden && Allowed(cfg, k, op) && ErasedKernel(k, l, hidden)
    ensures if StepOf(op, hidden) then ErasedKernel(KernelStep(k, op), l, hidden)
            else Allowed(cfg, l, op) && ErasedKernel(KernelStep(k, op), KernelStep(l, op), hidden)
  {
  }

  lemma {:induction false} ErasedIsLegal(cfg: Config, ops: seq<Op>, hidden: set<Handle>)
    requires NULL !in hidden && Legal(cfg, ops)
    ensures Legal(cfg, Erase(ops, hidden)) && ErasedKernel(KernelRun(ops), KernelRun(Erase(ops, hidden)), hidden)
  {
    if ops == [] {
    } else {
      hide ErasedKernel, Allowed, KernelStep, StepOf;
      var front, op := ops[..|ops| - 1], ops[|ops| - 1];
      ErasedIsLegal(cfg, front, hidden);
      var rest := Erase(front, hidden);
      ErasedStep(cfg, KernelRun(front), KernelRun(rest), op, hidden);
      if StepOf(op, hidden) {
        assert Erase(ops, hidden) == rest;
      } else {
        assert Erase(ops, hidden) == rest + [op];
        assert (rest + [op])[..|rest|] == rest;
      }
    }
  }

  /** The merges of a run are the hand-overs between the tasks that remain when excluded ones are erased. */
  lemma MergesJoinNeighbours(cfg: Config, ops: seq<Op>, hidden: set<Handle>)
    requires NULL !in hidden && Legal(cfg, ops) && Excluded(cfg, ops, hidden)
    requires Good(Run(cfg, ops), KernelRun(ops))
    ensures var rest := Erase(ops, hidden);
            var t, c := Run(cfg, rest), Chain(cfg, rest);
            && Legal(cfg, rest) && Run(cfg, ops).merges == t.merges
            && MergesFollow(t, c) && (forall i :: 0 < i < |c| ==> c[i - 1] != c[i])
            && (forall h :: h in c ==> h !in hidden)
  {
    var rest := Erase(ops, hidden);
    ErasedIsLegal(cfg, ops, hidden);
    ExcludedTasksAreInvisible(cfg, ops, hidden);
    ReachableHistory(cfg, rest);
    ReachableAttribution(cfg, rest);
    hide Legal, Run, KernelRun, Chain, Filter, MergesFollow, Excluded;
    var s, t := Run(cfg, ops), Run(cfg, rest);
    assert forall h :: h in hidden ==> Filter(t, h) == 0;
  }
}
