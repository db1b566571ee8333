/** What every reachable state keeps about the table of probes and the tasks' numbers. */
module Registry {
  import opened Options
  import opened ProbeIdHash
  import opened Port
  import opened Trace

  ghost predicate Traced(s: State, task: Handle) {
    task != NULL && FindSlot(s.slots, task).Some?
  }

  /** The slot of a traced task. */
  ghost function SlotOf(s: State, task: Handle): Slot
    requires Traced(s, task)
  {
    s.slots[FindSlot(s.slots, task).value]
  }

  /** An occupied slot, its task's number and its probe agree. */
  ghost predicate SlotInv(s: State, k: Kernel, slot: Slot) {
    && slot.tcb in k.names && slot.tcb in s.numbers
    && slot.probe.Some? && slot.probe.value < |s.probes|
    && Filter(s, slot.tcb) == 0xFFFF
    && ProbeId(s, slot.tcb) == HashName(k.names[slot.tcb]) == s.probes[slot.probe.value].id != 0
    && slot.snapshot.Snapshot? && slot.snapshot.origin == slot.probe.value
    && slot.messages.Some? == slot.hasTaskBuffer
  }

  /** Occupied slots come first, in the order their probes were made; free ones are blank. */
  ghost predicate SlotsInOrder(slots: seq<Slot>) {
    && (forall i, j :: 0 <= i <= j < |slots| && slots[i].tcb == NULL ==> slots[j] == FREE_SLOT)
    && (forall i, j :: 0 <= i < j < |slots| && slots[j].tcb != NULL ==>
          slots[i].tcb != slots[j].tcb && slots[i].probe.Some? && slots[j].probe.Some?
          && slots[i].probe.value < slots[j].probe.value)
  }

  ghost predicate RegistryInv(cfg: Config, s: State, k: Kernel) {
    && |s.slots| == cfg.maxProbes
    && SlotsInOrder(s.slots)
    && (forall i :: 0 <= i < |s.slots| && s.slots[i].tcb != NULL ==> SlotInv(s, k, s.slots[i]))
    && NULL !in k.names && NULL !in k.reserved
    && (forall h :: h in s.numbers ==> h in k.names && (Filter(s, h) == 0 || Filter(s, h) == 0xFFFF))
    && (s.error.None? ==> forall h :: h in s.numbers && Filter(s, h) != 0 ==> Traced(s, h))
  }

  lemma FilterOfUnknown(s: State, task: Handle)
    requires task !in s.numbers
    ensures Filter(s, task) == 0
  {
  }

  lemma GateIsFilter(s: State, task: Handle)
    ensures Gate(s, task) <==> Filter(s, task) != 0
  {
    MaskAll(Filter(s, task));
  }

  lemma MaskAll(x: bv16)
    ensures x & 0xFFFF == x
  {
  }

  // ----- Steps that register nothing -----

  ghost predicate SameSlot(a: Slot, b: Slot) {
    && a.tcb == b.tcb && a.probe == b.probe && a.hasTaskBuffer == b.hasTaskBuffer
    && a.messages.Some? == b.messages.Some?
    && a.snapshot.Snapshot? == b.snapshot.Snapshot?
    && (a.snapshot.Snapshot? ==> a.snapshot.origin == b.snapshot.origin)
    && (a == FREE_SLOT ==> b == FREE_SLOT)
  }

  /** `t` has the same tasks, slots and probes as `s`; contents of logs, snapshots and buffers may differ. */
  ghost predicate SameRegistry(s: State, t: State) {
    && t.numbers == s.numbers
    && |t.probes| == |s.probes| && (forall p :: 0 <= p < |s.probes| ==> t.probes[p].id == s.probes[p].id)
    && |t.slots| == |s.slots| && (forall i :: 0 <= i < |s.slots| ==> SameSlot(s.slots[i], t.slots[i]))
    && (t.error.None? ==> s.error.None?)
  }

  lemma SameFind(a: seq<Slot>, b: seq<Slot>, task: Handle)
    requires |a| == |b| && forall i :: 0 <= i < |a| ==> a[i].tcb == b[i].tcb
    ensures FindSlot(a, task) == FindSlot(b, task)
  {
    hide FindSlotFrom;
    var i, j := FindSlot(a, task), FindSlot(b, task);
    if i.Some? {
      assert b[i.value].tcb == a[i.value].tcb == task;
    }
    if j.Some? {
      assert a[j.value].tcb == b[j.value].tcb == task;
    }
  }

  lemma SameNumbers(s: State, t: State, task: Handle)
    requires t.numbers == s.numbers
    ensures Filter(t, task) == Filter(s, task) && ProbeId(t, task) == ProbeId(s, task)
  {
    hide ReadLower16, ReadUpper16;
  }

  lemma SameRegistryKeepsInv(cfg: Config, s: State, t: State, k: Kernel, l: Kernel)
    requires RegistryInv(cfg, s, k) && SameRegistry(s, t)
    requires forall h :: h in k.names ==> h in l.names && l.names[h] == k.names[h]
    requires NULL !in l.names && NULL !in l.reserved
    ensures RegistryInv(cfg, t, l)
  {
    hide Filter, ProbeId, FindSlot, HashName;
    forall h
      ensures Filter(t, h) == Filter(s, h) && ProbeId(t, h) == ProbeId(s, h)
      ensures FindSlot(t.slots, h) == FindSlot(s.slots, h)
    {
      SameNumbers(s, t, h);
      SameFind(s.slots, t.slots, h);
    }
    forall i | 0 <= i < |t.slots| && t.slots[i].tcb != NULL
      ensures SlotInv(t, l, t.slots[i])
    {
      assert SameSlot(s.slots[i], t.slots[i]) && SlotInv(s, k, s.slots[i]);
    }
    assert SlotsInOrder(t.slots) by {
      forall i, j | 0 <= i <= j < |t.slots| && t.slots[i].tcb == NULL
        ensures t.slots[j] == FREE_SLOT
      {
        assert SameSlot(s.slots[i], t.slots[i]) && SameSlot(s.slots[j], t.slots[j]);
      }
      forall i, j | 0 <= i < j < |t.slots| && t.slots[j].tcb != NULL
        ensures t.slots[i].tcb != t.slots[j].tcb && t.slots[i].probe.Some? && t.slots[j].probe.Some?
                && t.slots[i].probe.value < t.slots[j].probe.value
      {
        assert SameSlot(s.slots[i], t.slots[i]) && SameSlot(s.slots[j], t.slots[j]);
      }
    }
  }

  lemma SameRegistryTransitive(s: State, t: State, u: State)
    requires SameRegistry(s, t) && SameRegistry(t, u)
    ensures SameRegistry(s, u)
  {
    forall i | 0 <= i < |s.slots|
      ensures SameSlot(s.slots[i], u.slots[i])
    {
      assert SameSlot(s.slots[i], t.slots[i]) && SameSlot(t.slots[i], u.slots[i]);
    }
  }

  lemma LogSame(s: State, e: Event, ok: bool)
    ensures SameRegistry(s, LogEvent(s, e, ok))
  {
    hide FindSlotFrom;
  }

  lemma MergeSame(s: State, ok: bool)
    ensures SameRegistry(s, MergeSnapshot(s, ok))
  {
    hide FindSlotFrom;
  }

  lemma ProduceSame(cfg: Config, s: State, k: Kernel, ok: bool)
    requires RegistryInv(cfg, s, k)
    ensures SameRegistry(s, ProduceSnapshot(s, ok))
  {
    hide FindSlotFrom, Filter, ProbeId, HashName;
    if s.enabled && s.current != NULL && FindSlot(s.slots, s.current).Some? && ok {
      var i := FindSlot(s.slots, s.current).value;
      assert SlotInv(s, k, s.slots[i]);
    }
  }

  lemma ProcessSame(cfg: Config, s: State, task: Handle, ok: bool)
    ensures SameRegistry(s, ProcessMessages(cfg, s, task, ok))
  {
    hide FindSlotFrom;
  }

  lemma RouteSame(cfg: Config, s: State, m: Message, to: Option<Destination>)
    ensures SameRegistry(s, Route(cfg, s, m, to))
  {
    hide HasRoom, Reaches, ProbeId;
  }

  /** The IO task is created while tracing is still disabled, so that its create hook registers nothing. */
  lemma EnableUnfolds(cfg: Config, s: State, caller: Handle, created: Handle, env: CreateEnv)
    ensures EnableTracing(cfg, s, caller, created, env) ==
            if s.enabled then s
            else if caller != NULL then Raise(s, EnabledAfterScheduler)
            else if SetsUpIoTask(cfg, s, caller) then
              var s1 := ExcludeTask(s, cfg.ioTaskName).(ioTask := created);
              (if created == NULL then Raise(s1, NoIoTask) else s1).(enabled := true)
            else s.(enabled := true)
  {
    assert !s.enabled ==> !ExcludeTask(s, cfg.ioTaskName).enabled by {
      hide HashName, FindId;
    }
    hide ExcludeTask;
  }

  /** Registration does nothing while tracing is disabled. */
  lemma EnableSame(cfg: Config, s: State, caller: Handle, created: Handle, env: CreateEnv)
    ensures SameRegistry(s, EnableTracing(cfg, s, caller, created, env))
  {
    hide HashName, FindIdFrom;
  }

  lemma SwitchInSame(s: State, task: Handle, priority: nat, mergeOk: bool, recordOk: bool)
    ensures SameRegistry(s, SwitchIn(s, task, priority, mergeOk, recordOk))
  {
    hide Gate, LogEvent, MergeSnapshot;
    if Gate(s, task) {
      var e := Event(TASK_SWITCHED_IN, Some(priority));
      var s1 := SwitchedTcb(s, task);
      var s2 := if s.current != task then MergeSnapshot(s1, mergeOk) else s1;
      MergeSame(s1, mergeOk);
      LogSame(s2, e, recordOk);
      SameRegistryTransitive(s1, s2, LogEvent(s2, e, recordOk));
      SameRegistryTransitive(s, s1, LogEvent(s2, e, recordOk));
    }
  }

  lemma SwitchOutSame(cfg: Config, s: State, k: Kernel, task: Handle, recordOk: bool, snapshotOk: bool)
    requires RegistryInv(cfg, s, k)
    ensures SameRegistry(s, SwitchOut(s, task, recordOk, snapshotOk))
  {
    hide Gate, LogEvent, ProduceSnapshot, RegistryInv;
    var e := Event(TASK_SWITCHED_OUT, None);
    var s1 := LogEvent(s, e, recordOk);
    LogSame(s, e, recordOk);
    KeepsInv(cfg, s, s1, k);
    ProduceSame(cfg, s1, k, snapshotOk);
    SameRegistryTransitive(s, s1, ProduceSnapshot(s1, snapshotOk));
  }

  lemma KeepsInv(cfg: Config, s: State, t: State, k: Kernel)
    requires RegistryInv(cfg, s, k) && SameRegistry(s, t)
    ensures RegistryInv(cfg, t, k)
  {
    SameRegistryKeepsInv(cfg, s, t, k, k);
  }

  lemma StepSame(cfg: Config, s: State, k: Kernel, op: Op)
    requires RegistryInv(cfg, s, k) && !op.Create?
    ensures SameRegistry(s, Step(cfg, s, op))
  {
    hide SwitchIn, SwitchOut, GatedLog, LogEvent, ProcessMessages, Route, EnableTracing, RegistryInv, HashName, FindId;
    match op
    case Enable(caller, ioTask, env) => EnableSame(cfg, s, caller, ioTask, env);
    case Disable =>
    case Exclude(name) =>
    case SwitchedIn(task, priority, mergeOk, recordOk) => SwitchInSame(s, task, priority, mergeOk, recordOk);
    case SwitchedOut(task, recordOk, snapshotOk) => SwitchOutSame(cfg, s, k, task, recordOk, snapshotOk);
    case Hook(task, e, ok) => HookSame(s, task, e, ok);
    case Deliver(m, to) => RouteSame(cfg, s, m, to);
    case Process(task, ok) => ProcessSame(cfg, s, task, ok);
    case IoFailure(e) =>
  }

  lemma HookSame(s: State, task: Handle, e: Event, ok: bool)
    ensures SameRegistry(s, GatedLog(s, task, e, ok))
  {
    hide Gate, LogEvent;
    LogSame(s, e, ok);
  }

  // ----- Creating a task -----

  /** `t` is `s` with the number of `task` set to `id` and `filter`. */
  ghost predicate Numbered(s: State, t: State, task: Handle, id: bv16, filter: bv16) {
    && t.numbers.Keys == s.numbers.Keys + {task}
    && ProbeId(t, task) == id && Filter(t, task) == filter
    && (forall h :: h != task ==> Filter(t, h) == Filter(s, h) && ProbeId(t, h) == ProbeId(s, h))
  }

  lemma SetNumberEffect(s: State, task: Handle, word: bv32)
    requires task != NULL
    ensures var t := SetNumber(s, task, word);
            t == s.(numbers := t.numbers) && Numbered(s, t, task, ReadLower16(word), ReadUpper16(word))
  {
    hide ReadLower16, ReadUpper16;
  }

  lemma SetFilterEffect(s: State, task: Handle, filter: bv16)
    requires task != NULL
    ensures var t := SetFilter(s, task, filter);
            t == s.(numbers := t.numbers) && Numbered(s, t, task, ProbeId(s, task), filter)
  {
    WriteKeepsOtherHalf(Number(s, task), filter);
    hide ReadLower16, ReadUpper16, WriteUpper16;
    SetNumberEffect(s, task, WriteUpper16(Number(s, task), filter));
  }

  lemma SetProbeIdEffect(s: State, task: Handle, id: bv16)
    requires task != NULL
    ensures var t := SetProbeId(s, task, id);
            t == s.(numbers := t.numbers) && Numbered(s, t, task, id, Filter(s, task))
  {
    WriteKeepsOtherHalf(Number(s, task), id);
    hide ReadLower16, ReadUpper16, WriteLower16;
    SetNumberEffect(s, task, WriteLower16(Number(s, task), id));
  }

  /** Every error raised between `s` and `t` has left tracing off, and nothing else records one or leaves a section. */
  ghost predicate RaisesDisable(s: State, t: State) {
    && s.raises <= t.raises
    && (t.raises != s.raises ==> !t.enabled && t.error.Some?)
    && (t.error != s.error || t.unclosed != s.unclosed ==> t.raises != s.raises)
  }

  /** The state in which a registration decides whether to trace. */
  ghost function Identified(s: State, task: Handle, name: Bytes): State {
    SetFilter(SetProbeId(HashOrRaise(s, name), task, HashName(name)), task, 0)
  }

  lemma IdentifiedEffect(s: State, task: Handle, name: Bytes)
    requires task != NULL
    ensures var t := Identified(s, task, name);
            && t == s.(enabled := t.enabled, error := t.error, raises := t.raises, numbers := t.numbers)
            && Numbered(s, t, task, HashName(name), 0)
            && (s.error.Some? ==> t.error == s.error) && RaisesDisable(s, t)
            && (if HashedLength(name) == 0 then !t.enabled && t.error.Some?
                else t.enabled == s.enabled && t.error == s.error)
  {
    hide HashName, SetFilter, SetProbeId, Filter, ProbeId;
    var s1 := HashOrRaise(s, name);
    var s2 := SetProbeId(s1, task, HashName(name));
    SetProbeIdEffect(s1, task, HashName(name));
    SetFilterEffect(s2, task, 0);
    forall h
      ensures Filter(s1, h) == Filter(s, h) && ProbeId(s1, h) == ProbeId(s, h)
    {
      SameNumbers(s, s1, h);
    }
  }

  /** A slot as registration fills it: a first snapshot with an empty past, and both buffers or neither. */
  ghost predicate NewSlot(slot: Slot, task: Handle, probe: nat) {
    && slot.tcb == task && slot.probe == Some(probe) && slot.snapshot == Snapshot(probe, {})
    && (slot.messages == None || slot.messages == Some([])) && slot.messages.Some? == slot.hasTaskBuffer
  }

  lemma AddTcbProbeEffect(cfg: Config, s: State, task: Handle, probe: nat, env: CreateEnv)
    requires SlotsInOrder(s.slots) && probe < |s.probes| && s.probes[probe].past == {}
    ensures var t := AddTcbProbe(cfg, s, task, probe, env);
            var i := FindSlot(s.slots, NULL);
            && t == s.(enabled := t.enabled, error := t.error, raises := t.raises, slots := t.slots)
            && (t.error.None? ==> s.error.None? && t.enabled == s.enabled)
            && (s.error.Some? ==> t.error == s.error)
            && (t.enabled ==> s.enabled && t.error == s.error) && RaisesDisable(s, t)
            && (|| (t.slots == s.slots && !t.enabled && t.error.Some?)
                || (i.Some? && i.value < |t.slots| && t.slots == s.slots[i.value := t.slots[i.value]]
                    && NewSlot(t.slots[i.value], task, probe)))
  {
    hide FindSlotFrom;
  }

  /** The registration ended without a probe. */
  ghost predicate LeftUntraced(s: State, t: State, task: Handle) {
    t.probes == s.probes && t.slots == s.slots && Filter(t, task) == 0
  }

  /** A probe was made but no slot could be given to it; that is an error. */
  ghost predicate Orphaned(s: State, t: State, task: Handle, id: bv16) {
    && |t.probes| == |s.probes| + 1 && t.probes[..|s.probes|] == s.probes && t.probes[|s.probes|].id == id != 0
    && t.slots == s.slots && Filter(t, task) == 0xFFFF
    && !t.enabled && t.error.Some?
  }

  /** The task was given the next probe and the first free slot. */
  ghost predicate Installed(s: State, t: State, task: Handle, id: bv16, priority: nat) {
    var i, p := FindSlot(s.slots, NULL), |s.probes|;
    && i.Some? && i.value < |t.slots| && t.slots == s.slots[i.value := t.slots[i.value]]
    && NewSlot(t.slots[i.value], task, p)
    && |t.probes| == p + 1 && t.probes[..p] == s.probes && t.probes[p].id == id != 0
    && t.probes[p].control == []
    && (t.error.None? ==> t.probes[p].log == [Event(TASK_CREATE, Some(priority))] && t.probes[p].past == {Stamp(p, 0)})
    && Filter(t, task) == 0xFFFF
  }

  lemma AllocProbeEffect(cfg: Config, s: State, id: bv16, env: CreateEnv)
    ensures var (t, p) := AllocProbe(cfg, s, id, env);
            && t == s.(enabled := t.enabled, error := t.error, raises := t.raises, nextStorage := t.nextStorage,
                       probes := t.probes)
            && (t.error.None? ==> s.error.None? && t.enabled == s.enabled)
            && (s.error.Some? ==> t.error == s.error)
            && (t.enabled ==> s.enabled && t.error == s.error) && RaisesDisable(s, t)
            && (p.None? ==> t.probes == s.probes && (id == 0 || (!t.enabled && t.error.Some?)))
            && (p.Some? ==> (&& id != 0 && p.value == |s.probes| && t.enabled == s.enabled && t.error == s.error
                             && t.probes == s.probes + [t.probes[p.value]]
                             && t.probes[p.value] == Probe(id, t.probes[p.value].storage, [], {}, [])))
  {
  }

  /** Everything a registration can come to. */
  lemma RegisterEffect(cfg: Config, s: State, task: Handle, name: Bytes, priority: nat, env: CreateEnv)
    requires s.enabled && task != NULL && SlotsInOrder(s.slots)
    ensures var t, id := Register(cfg, s, task, name, priority, env), HashName(name);
            && t == s.(enabled := t.enabled, error := t.error, raises := t.raises, slots := t.slots,
                       nextStorage := t.nextStorage, unclosed := t.unclosed, numbers := t.numbers, probes := t.probes)
            && Numbered(s, t, task, id, Filter(t, task))
            && (t.enabled ==> t.error == s.error)
            && (t.error.None? ==> t.enabled && s.error.None?)
            && (|| LeftUntraced(s, t, task)
                || (id !in s.excluded && Orphaned(s, t, task, id))
                || (id !in s.excluded && Installed(s, t, task, id, priority)))
            && (t.error.None? && id != 0 && id !in s.excluded ==> Installed(s, t, task, id, priority))
  {
    hide HashName, Filter, ProbeId, FindSlot, Identified, SetFilter, AllocProbe, AddTcbProbe;
    var id := HashName(name);
    var s1 := Identified(s, task, name);
    IdentifiedEffect(s, task, name);
    RegisterUnfolds(cfg, s, task, name, priority, env);
    if id !in s1.excluded {
      var (s2, probe) := AllocProbe(cfg, s1, id, env);
      AllocProbeEffect(cfg, s1, id, env);
      NumbersCarry(s1, s2);
      if probe.Some? {
        var s3 := AddTcbProbe(cfg, s2, task, probe.value, env);
        var s4 := SetFilter(s3, task, 0xFFFF);
        AddTcbProbeEffect(cfg, s2, task, probe.value, env);
        SetFilterEffect(s3, task, 0xFFFF);
        NumbersCarry(s2, s3);
        var t := Register(cfg, s, task, name, priority, env);
        NumbersCarry(s4, t);
      }
    }
  }

  lemma NumbersCarry(s: State, t: State)
    requires t.numbers == s.numbers
    ensures forall h :: Filter(t, h) == Filter(s, h) && ProbeId(t, h) == ProbeId(s, h)
  {
    hide Filter, ProbeId;
    forall h
      ensures Filter(t, h) == Filter(s, h) && ProbeId(t, h) == ProbeId(s, h)
    {
      SameNumbers(s, t, h);
    }
  }

  lemma RegisterUnfolds(cfg: Config, s: State, task: Handle, name: Bytes, priority: nat, env: CreateEnv)
    requires s.enabled
    ensures var s1 := Identified(s, task, name);
            var (s2, probe) := AllocProbe(cfg, s1, HashName(name), env);
            Register(cfg, s, task, name, priority, env) ==
            if HashName(name) in s1.excluded then s1
            else if probe.None? then s2
            else
              var s4 := SetFilter(AddTcbProbe(cfg, s2, task, probe.value, env), task, 0xFFFF);
              if env.record then Record(s4, probe, Event(TASK_CREATE, Some(priority)))
              else Abort(s4, CreateEventFailed)
  {
    hide HashName, SetFilter, SetProbeId, HashOrRaise, AllocProbe, AddTcbProbe, Record;
  }

  lemma DisabledCreate(cfg: Config, s: State, op: Op)
    requires op.Create? && !s.enabled
    ensures Step(cfg, s, op) == s
  {
  }

  // ----- Every reachable state -----

  /** Slots of other tasks are untouched by a registration. */
  lemma OtherSlotKept(cfg: Config, s: State, t: State, k: Kernel, l: Kernel, task: Handle, slot: Slot)
    requires RegistryInv(cfg, s, k) && SlotInv(s, k, slot) && slot.tcb != task
    requires Numbered(s, t, task, ProbeId(t, task), Filter(t, task))
    requires |t.probes| >= |s.probes| && t.probes[..|s.probes|] == s.probes
    requires slot.tcb in l.names && l.names[slot.tcb] == k.names[slot.tcb]
    ensures SlotInv(t, l, slot)
  {
    hide Filter, ProbeId, HashName;
    assert t.probes[slot.probe.value] == s.probes[slot.probe.value];
  }

  lemma FreshTask(cfg: Config, s: State, k: Kernel, task: Handle)
    requires RegistryInv(cfg, s, k) && task != NULL && task !in k.names
    ensures task !in s.numbers && !Traced(s, task)
    ensures forall i :: 0 <= i < |s.slots| ==> s.slots[i].tcb != task
  {
    hide Filter, ProbeId, HashName;
    forall i | 0 <= i < |s.slots|
      ensures s.slots[i].tcb != task
    {
      if s.slots[i].tcb != NULL {
        assert SlotInv(s, k, s.slots[i]);
      }
    }
  }

  lemma InstalledInOrder(cfg: Config, s: State, t: State, k: Kernel, task: Handle, id: bv16, priority: nat)
    requires RegistryInv(cfg, s, k) && task != NULL && task !in k.names && Installed(s, t, task, id, priority)
    ensures SlotsInOrder(t.slots)
    ensures Traced(t, task)
  {
    hide Filter, ProbeId, HashName, FindSlotFrom;
    FreshTask(cfg, s, k, task);
    var n := FindSlot(s.slots, NULL).value;
    forall i | 0 <= i < n
      ensures SlotInv(s, k, s.slots[i])
    {
    }
  }

  lemma InstalledKeepsTraced(s: State, t: State, task: Handle, id: bv16, priority: nat, h: Handle)
    requires Installed(s, t, task, id, priority) && Traced(s, h)
    ensures Traced(t, h)
  {
    hide FindSlotFrom, Filter;
    var j, n := FindSlot(s.slots, h).value, FindSlot(s.slots, NULL).value;
    assert t.slots[j].tcb == h;
  }

  ghost predicate Outcome(s: State, t: State, task: Handle, id: bv16, priority: nat) {
    && Numbered(s, t, task, id, Filter(t, task))
    && (t.error.None? ==> s.error.None?)
    && (LeftUntraced(s, t, task) || Orphaned(s, t, task, id) || Installed(s, t, task, id, priority))
  }

  lemma OutcomeKeepsSlots(cfg: Config, s: State, t: State, k: Kernel, l: Kernel, task: Handle, name: Bytes,
                          priority: nat)
    requires RegistryInv(cfg, s, k) && task != NULL && task !in k.names
    requires l == k.(names := k.names[task := name]) && Outcome(s, t, task, HashName(name), priority)
    ensures SlotsInOrder(t.slots)
    ensures forall i :: 0 <= i < |t.slots| && t.slots[i].tcb != NULL ==> SlotInv(t, l, t.slots[i])
  {
    hide Filter, ProbeId, HashName, FindSlotFrom;
    FreshTask(cfg, s, k, task);
    var id := HashName(name);
    if Installed(s, t, task, id, priority) {
      InstalledInOrder(cfg, s, t, k, task, id, priority);
    }
    forall i | 0 <= i < |t.slots| && t.slots[i].tcb != NULL
      ensures SlotInv(t, l, t.slots[i])
    {
      if t.slots[i] == s.slots[i] {
        OtherSlotKept(cfg, s, t, k, l, task, s.slots[i]);
      }
    }
  }

  lemma OutcomeKeepsNumbers(cfg: Config, s: State, t: State, k: Kernel, task: Handle, id: bv16, priority: nat,
                            h: Handle)
    requires RegistryInv(cfg, s, k) && task != NULL && task !in k.names
    requires Outcome(s, t, task, id, priority) && h in t.numbers
    ensures h == task || h in k.names
    ensures Filter(t, h) == 0 || Filter(t, h) == 0xFFFF
    ensures t.error.None? && Filter(t, h) != 0 ==> Traced(t, h)
  {
    hide Filter, ProbeId, FindSlotFrom;
    if Installed(s, t, task, id, priority) {
      if h != task && Traced(s, h) {
        InstalledKeepsTraced(s, t, task, id, priority, h);
      } else if h == task {
        InstalledInOrder(cfg, s, t, k, task, id, priority);
      }
    }
  }

  lemma CreateKeepsInv(cfg: Config, s: State, k: Kernel, task: Handle, name: Bytes, priority: nat, env: CreateEnv)
    requires RegistryInv(cfg, s, k) && Allowed(cfg, k, Create(task, name, priority, env))
    ensures RegistryInv(cfg, Register(cfg, s, task, name, priority, env),
                        KernelStep(k, Create(task, name, priority, env)))
  {
    var t, l := Register(cfg, s, task, name, priority, env), KernelStep(k, Create(task, name, priority, env));
    if !s.enabled {
      SameRegistryKeepsInv(cfg, s, s, k, l);
    } else {
      RegisterEffect(cfg, s, task, name, priority, env);
      hide Filter, ProbeId, HashName, FindSlotFrom, Register, SlotInv, SlotsInOrder;
      OutcomeKeepsSlots(cfg, s, t, k, l, task, name, priority);
      forall h | h in t.numbers
        ensures h in l.names && (Filter(t, h) == 0 || Filter(t, h) == 0xFFFF)
        ensures t.error.None? && Filter(t, h) != 0 ==> Traced(t, h)
      {
        OutcomeKeepsNumbers(cfg, s, t, k, task, HashName(name), priority, h);
      }
    }
  }

  lemma StepKeepsInv(cfg: Config, s: State, k: Kernel, op: Op)
    requires RegistryInv(cfg, s, k) && Allowed(cfg, k, op)
    ensures RegistryInv(cfg, Step(cfg, s, op), KernelStep(k, op))
  {
    if op.Create? {
      CreateKeepsInv(cfg, s, k, op.task, op.name, op.priority, op.env);
    } else {
      StepSame(cfg, s, k, op);
      hide Step, RegistryInv, SameRegistry;
      SameNullFree(cfg, s, k, op);
      SameRegistryKeepsInv(cfg, s, Step(cfg, s, op), k, KernelStep(k, op));
    }
  }

  lemma SameNullFree(cfg: Config, s: State, k: Kernel, op: Op)
    requires RegistryInv(cfg, s, k) && Allowed(cfg, k, op) && !op.Create?
    ensures NULL !in KernelStep(k, op).names && NULL !in KernelStep(k, op).reserved
    ensures KernelStep(k, op).names == k.names
  {
  }

  lemma InitInv(cfg: Config)
    ensures RegistryInv(cfg, Init(cfg), BOOT)
  {
  }

  /**
   * In every reachable state, with or without errors, the occupied slots are a gap-free prefix with
   * distinct tasks; each one's task number holds the hash of the task's name, which is the id its probe
   * was made with; and while no error is recorded a task passes the filter only if it has a slot.
   */
  lemma {:induction false} ReachableRegistry(cfg: Config, ops: seq<Op>)
    requires Legal(cfg, ops)
    ensures RegistryInv(cfg, Run(cfg, ops), KernelRun(ops))
  {
    if ops == [] {
      InitInv(cfg);
    } else {
      hide RegistryInv, Step, KernelStep, Allowed;
      var front, op := ops[..|ops| - 1], ops[|ops| - 1];
      ReachableRegistry(cfg, front);
      StepKeepsInv(cfg, Run(cfg, front), KernelRun(front), op);
    }
  }

  // ----- The IO task -----

  /** The handle of the IO task comes from enabling, and no task's creation is ever registered under it. */
  lemma {:induction false} ReservedIsNotNamed(cfg: Config, ops: seq<Op>)
    requires Legal(cfg, ops)
    ensures KernelRun(ops).names.Keys !! KernelRun(ops).reserved
    ensures Run(cfg, ops).ioTask != NULL ==> Run(cfg, ops).ioTask in KernelRun(ops).reserved
  {
    if ops == [] {
    } else {
      var front, op := ops[..|ops| - 1], ops[|ops| - 1];
      ReservedIsNotNamed(cfg, front);
      ReachableRegistry(cfg, front);
      hide RegistryInv, Step, Run, KernelRun, Legal;
      StepKeepsIoTask(cfg, Run(cfg, front), KernelRun(front), op);
    }
  }

  lemma StepKeepsIoTask(cfg: Config, s: State, k: Kernel, op: Op)
    requires RegistryInv(cfg, s, k) && Allowed(cfg, k, op)
    ensures var t := Step(cfg, s, op); t.ioTask == s.ioTask || (op.Enable? && t.ioTask == op.ioTask)
  {
    hide Register, EnableTracing, FindSlot, FindId, HashName, Gate, HasRoom, Reaches, ProbeId, LogEvent, MergeSnapshot,
         ProduceSnapshot, SlotsInOrder, SlotInv;
    match op
    case Enable(caller, created, env) =>
      EnableUnfolds(cfg, s, caller, created, env);
    case Create(task, name, priority, env) =>
      if s.enabled {
        RegisterEffect(cfg, s, task, name, priority, env);
      } else {
        DisabledCreate(cfg, s, op);
      }
    case SwitchedIn(task, priority, mergeOk, recordOk) =>
      CallsKeepIoTask(SwitchedTcb(s, task), Event(TASK_SWITCHED_IN, Some(priority)), mergeOk);
      var s1 := SwitchedTcb(s, task);
      CallsKeepIoTask(if s.current != task then MergeSnapshot(s1, mergeOk) else s1,
                      Event(TASK_SWITCHED_IN, Some(priority)), recordOk);
    case SwitchedOut(_, recordOk, snapshotOk) =>
      var e := Event(TASK_SWITCHED_OUT, None);
      CallsKeepIoTask(s, e, recordOk);
      CallsKeepIoTask(LogEvent(s, e, recordOk), e, snapshotOk);
    case Hook(_, e, ok) =>
      CallsKeepIoTask(s, e, ok);
    case _ =>
  }

  lemma CallsKeepIoTask(s: State, e: Event, ok: bool)
    ensures LogEvent(s, e, ok).ioTask == MergeSnapshot(s, ok).ioTask == ProduceSnapshot(s, ok).ioTask == s.ioTask
  {
    hide FindSlot;
  }

  /**
   * The IO task is never traced, in any reachable state, whatever errors there are and however often tracing is
   * enabled: it has no slot, and its filter passes at no hook. Its exclusion has no part in this.
   */
  lemma IoTaskIsNeverTraced(cfg: Config, ops: seq<Op>, h: Handle)
    requires Legal(cfg, ops) && (h in KernelRun(ops).reserved || h == Run(cfg, ops).ioTask != NULL)
    ensures !Traced(Run(cfg, ops), h) && !Gate(Run(cfg, ops), h)
  {
    var s, k := Run(cfg, ops), KernelRun(ops);
    ReachableRegistry(cfg, ops);
    ReservedIsNotNamed(cfg, ops);
    hide Run, KernelRun, Legal, FindSlotFrom;
    assert h !in k.names;
    assert Traced(s, h) ==> SlotInv(s, k, SlotOf(s, h));
    if h !in s.numbers {
      FilterOfUnknown(s, h);
    }
    hide Filter;
    GateIsFilter(s, h);
  }
}
