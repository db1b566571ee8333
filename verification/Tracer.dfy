/**
 * The tracing backend as it runs: globals and fixed arrays updated in place. Each method is proved
 * equal to the step of the same name on the abstract state.
 */
module Tracer {
  import opened Options
  import opened ProbeIdHash
  import opened Port
  import opened Trace

  /** The two kinds of port: one counts nested critical sections, one saves and restores a mask. */
  datatype Critical = Nesting(depth: nat) | Mask(disabled: bool)

  function Enter(c: Critical): Critical {
    match c
    case Nesting(depth) => Nesting(depth + 1)
    case Mask(_) => Mask(true)
  }

  /** No other task and no interrupt runs: what every call into the probe library requires. */
  predicate Exclusive(c: Critical) {
    match c
    case Nesting(depth) => depth > 0
    case Mask(disabled) => disabled
  }

  class Backend {
    const cfg: Config

    var isEnabled: bool
    var errorMsg: Option<Error>
    var currentTcb: Handle
    var prevTcb: Handle
    const tcbProbes: array<Slot>
    const excludedIds: array<bv16>
    var nextStorageIndex: nat
    var ioTaskHandle: Handle

    // The port, the kernel's task numbers, and the probe library.
    var critical: Critical
    var taskNumbers: map<Handle, bv32>
    var probes: seq<Probe>
    ghost var merges: seq<Merge>

    /** How many errors have been raised, and how many critical sections a failed assertion has left entered. */
    ghost var raises: nat
    ghost var unclosed: nat

    /** The two arrays do not overlap. */
    ghost predicate Valid() {
      tcbProbes as object != excludedIds
    }

    ghost function Abs(): State
      reads this, tcbProbes, excludedIds
    {
      State(isEnabled, errorMsg, currentTcb, prevTcb, tcbProbes[..], excludedIds[..], nextStorageIndex,
            ioTaskHandle, raises, unclosed, taskNumbers, probes, merges)
    }

    /**
     * What an entry point does to the port: nothing; or, if tracing was enabled, it leaves one more
     * section entered, counts it, and disables tracing. It never enables tracing.
     */
    twostate predicate Balanced()
      reads this
    {
      && (isEnabled ==> old(isEnabled))
      && (|| (unclosed == old(unclosed) && critical == old(critical))
          || (unclosed == old(unclosed) + 1 && critical == Enter(old(critical)) && old(isEnabled) && !isEnabled))
    }

    constructor (cfg: Config, critical: Critical)
      ensures Valid() && this.cfg == cfg && fresh(tcbProbes) && fresh(excludedIds)
      ensures Abs() == Init(cfg) && this.critical == critical
    {
      this.cfg := cfg;
      isEnabled, errorMsg := false, None;
      currentTcb, prevTcb := NULL, NULL;
      tcbProbes := new Slot[cfg.maxProbes](_ => FREE_SLOT);
      excludedIds := new bv16[cfg.maxExcluded](_ => 0);
      nextStorageIndex, ioTaskHandle := 0, NULL;
      this.critical := critical;
      taskNumbers, probes, merges, raises, unclosed := map[], [], [], 0, 0;
    }

    // ----- Critical sections -----

    method EnterCriticalSection() returns (saved: Critical)
      modifies this`critical
      ensures saved == old(critical) && critical == Enter(old(critical)) && Exclusive(critical)
    {
      saved := critical;
      critical := match critical
        case Nesting(depth) => Nesting(depth + 1)
        case Mask(_) => Mask(true);
    }

    /** The counting port decrements its count; the saving port writes back what it saved. */
    method ExitCriticalSection(saved: Critical)
      requires critical == Enter(saved)
      modifies this`critical
      ensures critical == saved
    {
      critical := match critical
        case Nesting(depth) => Nesting(depth - 1)
        case Mask(_) => saved;
    }

    // ----- Errors -----

    method PrvTraceError(e: Error)
      modifies this`isEnabled, this`errorMsg, this`raises
      ensures Abs() == Raise(old(Abs()), e)
    {
      isEnabled, raises := false, raises + 1;
      if errorMsg == None {
        errorMsg := Some(e);
      }
    }

    // ----- Task numbers -----

    method TaskNumber(task: Handle) returns (word: bv32)
      ensures word == Number(Abs(), task)
    {
      word := if task in taskNumbers then taskNumbers[task] else 0;
    }

    method SetTaskNumber(task: Handle, word: bv32)
      modifies this`taskNumbers
      ensures Abs() == SetNumber(old(Abs()), task, word)
    {
      if task != NULL {
        taskNumbers := taskNumbers[task := word];
      }
    }

    method PrvTraceSetTaskProbeId(task: Handle, id: bv16)
      modifies this`taskNumbers
      ensures Abs() == SetProbeId(old(Abs()), task, id)
    {
      var word := TaskNumber(task);
      SetTaskNumber(task, WriteLower16(word, id));
    }

    method PrvTraceSetTaskFilter(task: Handle, filter: bv16)
      modifies this`taskNumbers
      ensures Abs() == SetFilter(old(Abs()), task, filter)
    {
      var word := TaskNumber(task);
      SetTaskNumber(task, WriteUpper16(word, filter));
    }

    method PassesFilter(task: Handle) returns (r: bool)
      ensures r == Gate(Abs(), task)
    {
      var word := TaskNumber(task);
      r := ReadUpper16(word) & 0xFFFF != 0;
    }

    // ----- Searching -----

    method GetTcbProbe(task: Handle) returns (r: Option<nat>)
      ensures r == FindSlot(tcbProbes[..], task)
    {
      var i := 0;
      while i < tcbProbes.Length
        invariant i <= tcbProbes.Length
        invariant FindSlot(tcbProbes[..], task) == FindSlotFrom(tcbProbes[..], task, i)
      {
        if tcbProbes[i].tcb == task {
          return Some(i);
        }
        i := i + 1;
      }
      r := None;
    }

    method IsTaskExcluded(id: bv16) returns (r: bool)
      ensures r == (id in excludedIds[..])
    {
      var i := 0;
      while i < excludedIds.Length
        invariant i <= excludedIds.Length
        invariant id !in excludedIds[..i]
      {
        if excludedIds[i] == id {
          return true;
        }
        i := i + 1;
      }
      r := false;
    }

    // ----- The probe library -----

    method RecordEvent(probe: Option<nat>, e: Event)
      requires Exclusive(critical)
      modifies this`probes
      ensures Abs() == Record(old(Abs()), probe, e)
    {
      if probe.Some? && probe.value < |probes| {
        var p := probe.value;
        var was := probes[p];
        probes := probes[p := was.(log := was.log + [e], past := was.past + {Stamp(p, |was.log|)})];
      }
    }

    method TakeSnapshot(probe: Option<nat>) returns (snapshot: Snapshot)
      requires Exclusive(critical)
      ensures snapshot == Produce(Abs(), probe)
    {
      snapshot := Zeroed;
      if probe.Some? && probe.value < |probes| {
        snapshot := Snapshot(probe.value, probes[probe.value].past);
      }
    }

    method MergeSnapshotInto(probe: Option<nat>, snapshot: Snapshot)
      requires Exclusive(critical)
      modifies this`probes, this`merges
      ensures Abs() == MergeInto(old(Abs()), probe, snapshot)
    {
      if probe.Some? && probe.value < |probes| && snapshot.Snapshot? {
        var p := probe.value;
        probes := probes[p := probes[p].(past := probes[p].past + snapshot.past)];
        merges := merges + [Merge(p, snapshot)];
      }
    }

    // ----- Registration -----

    method ProbeIdHash(name: Bytes) returns (id: bv16)
      modifies this`isEnabled, this`errorMsg, this`raises
      ensures id == HashName(name)
      ensures Abs() == HashOrRaise(old(Abs()), name) && (isEnabled ==> old(isEnabled))
    {
      var length := |name| % 256;
      if length == 0 {
        PrvTraceError(EmptyName);
        return 0;
      }
      id := HashLoop(name, length);
    }

    method AllocateStorage(malloc: bool) returns (storage: Option<nat>)
      modifies this`nextStorageIndex
      ensures (storage, nextStorageIndex) ==
              if cfg.staticAllocation then AllocStorage(cfg, old(nextStorageIndex))
              else (if malloc then Some(0) else None, old(nextStorageIndex))
    {
      storage := None;
      if cfg.staticAllocation {
        var end := (nextStorageIndex + cfg.probeSize) % (cfg.sizeMax + 1);
        if end <= cfg.storageSize {
          storage := Some(nextStorageIndex);
          nextStorageIndex := end;
        }
      } else if malloc {
        storage := Some(0);
      }
    }

    method AllocateProbe(id: bv16, env: CreateEnv) returns (probe: Option<nat>)
      requires Exclusive(critical)
      modifies this`isEnabled, this`errorMsg, this`raises, this`nextStorageIndex, this`probes
      ensures (Abs(), probe) == AllocProbe(cfg, old(Abs()), id, env)
    {
      probe := None;
      var storage := AllocateStorage(env.storage);
      if storage == None {
        PrvTraceError(NoStorage);
      } else if id != 0 {
        if !env.initialize {
          PrvTraceError(ProbeInitFailed);
          return None;
        }
        probe := Some(|probes|);
        probes := probes + [Probe(id, storage.value, [], {}, [])];
      }
    }

    method AddControlPlaneBuffers(i: nat, env: CreateEnv)
      requires Valid() && i < tcbProbes.Length && cfg.controlPlane
      modifies this`isEnabled, this`errorMsg, this`raises, tcbProbes
      ensures Abs() == AddBuffers(cfg, old(Abs()), i, env)
    {
      if !env.messageBuffer {
        PrvTraceError(NoMessageBuffer);
      }
      if !env.taskBuffer {
        PrvTraceError(NoTaskBuffer);
      }
      if env.messageBuffer && env.taskBuffer {
        tcbProbes[i] := tcbProbes[i].(messages := Some([]), hasTaskBuffer := true);
        assert tcbProbes[..] ==
               old(tcbProbes[..])[i := old(tcbProbes[i]).(messages := Some([]), hasTaskBuffer := true)];
      }
    }

    method AddProbe(task: Handle, probe: nat, env: CreateEnv)
      requires Valid() && task != NULL && Exclusive(critical)
      modifies this`isEnabled, this`errorMsg, this`raises, tcbProbes
      ensures Abs() == AddTcbProbe(cfg, old(Abs()), task, probe, env)
    {
      var i := 0;
      var slotWasFound := false;
      while i < tcbProbes.Length && !slotWasFound
        invariant i <= tcbProbes.Length
        invariant isEnabled == old(isEnabled) && errorMsg == old(errorMsg) && raises == old(raises)
        invariant !slotWasFound ==> Abs() == old(Abs())
        invariant !slotWasFound ==> FindSlot(tcbProbes[..], NULL) == FindSlotFrom(tcbProbes[..], NULL, i)
        invariant slotWasFound ==>
          i < tcbProbes.Length && FindSlot(old(tcbProbes[..]), NULL) == Some(i) && env.snapshot
          && tcbProbes[..] == old(tcbProbes[..])[i := old(tcbProbes[i]).(
               tcb := task, probe := Some(probe), snapshot := Produce(old(Abs()), Some(probe)))]
        decreases tcbProbes.Length - i, !slotWasFound
      {
        if tcbProbes[i].tcb == NULL {
          if !env.snapshot {
            PrvTraceError(SnapshotFailed);
            return;
          }
          var snapshot := TakeSnapshot(Some(probe));
          tcbProbes[i] := tcbProbes[i].(tcb := task, probe := Some(probe), snapshot := snapshot);
          slotWasFound := true;
        } else {
          i := i + 1;
        }
      }
      if !slotWasFound {
        PrvTraceError(NoProbeSlots);
      }
      if cfg.controlPlane && slotWasFound {
        AddControlPlaneBuffers(i, env);
      }
    }

    /** The part of the registration that writes the task's number. */
    method IdentifyTask(task: Handle, name: Bytes) returns (id: bv16)
      modifies this`isEnabled, this`errorMsg, this`raises, this`taskNumbers
      ensures id == HashName(name)
      ensures Abs() == SetFilter(SetProbeId(HashOrRaise(old(Abs()), name), task, id), task, 0)
      ensures isEnabled ==> old(isEnabled)
    {
      hide SetFilter, SetProbeId, HashOrRaise, HashName;
      id := ProbeIdHash(name);
      PrvTraceSetTaskProbeId(task, id);
      PrvTraceSetTaskFilter(task, 0);
    }

    /** The part of the registration that decides whether the task gets a probe. */
    method ProbeUnlessExcluded(id: bv16, env: CreateEnv) returns (probe: Option<nat>)
      requires Exclusive(critical)
      modifies this`isEnabled, this`errorMsg, this`raises, this`nextStorageIndex, this`probes
      ensures (Abs(), probe) ==
              if id in old(Abs()).excluded then (old(Abs()), None) else AllocProbe(cfg, old(Abs()), id, env)
      ensures isEnabled ==> old(isEnabled)
    {
      probe := None;
      var isExcluded := IsTaskExcluded(id);
      if !isExcluded {
        probe := AllocateProbe(id, env);
      }
    }

    /** The part of the registration for a task that has a probe. A failed assertion in it returns from the caller. */
    method InstallProbe(task: Handle, probe: nat, priority: nat, env: CreateEnv)
      requires Valid() && task != NULL && Exclusive(critical)
      modifies this`isEnabled, this`errorMsg, this`raises, this`taskNumbers, this`probes, tcbProbes
      ensures var s := SetFilter(AddTcbProbe(cfg, old(Abs()), task, probe, env), task, 0xFFFF);
              Abs() == if env.record then Record(s, Some(probe), Event(TASK_CREATE, Some(priority)))
                       else Raise(s, CreateEventFailed)
      ensures isEnabled ==> old(isEnabled)
    {
      hide SetFilter, Record;
      AddProbe(task, probe, env);
      hide AddTcbProbe;
      PrvTraceSetTaskFilter(task, 0xFFFF);
      if env.record {
        RecordEvent(Some(probe), Event(TASK_CREATE, Some(priority)));
      } else {
        PrvTraceError(CreateEventFailed);
      }
    }

    method PrvTraceRegisterTaskProbe(task: Handle, name: Bytes, priority: nat, env: CreateEnv)
      requires Valid() && task != NULL
      modifies this, tcbProbes
      ensures Abs() == Register(cfg, old(Abs()), task, name, priority, env) && Balanced()
    {
      hide SetFilter, SetProbeId, HashOrRaise, HashName, AllocProbe, AddTcbProbe, Record, Enter;
      var saved := EnterCriticalSection();
      if isEnabled {
        var id := IdentifyTask(task, name);
        var probe := ProbeUnlessExcluded(id, env);
        if probe.Some? {
          InstallProbe(task, probe.value, priority, env);
          if !env.record {
            unclosed := unclosed + 1;
            return;
          }
        }
      }
      ExitCriticalSection(saved);
    }

    // ----- Configuration calls -----

    method VTraceExcludeTask(name: Bytes)
      requires Valid()
      modifies this, excludedIds
      ensures Abs() == ExcludeTask(old(Abs()), name) && Balanced()
    {
      hide HashName, HashOrRaise, FindId;
      var saved := EnterCriticalSection();
      var id := ProbeIdHash(name);
      var slotWasFound := StoreExcludedId(id);
      if !slotWasFound {
        PrvTraceError(NoExcludedSlots);
      }
      ExitCriticalSection(saved);
    }

    /** The loop of `vTraceExcludeTask`: the id goes to the first free entry, if there is one. */
    method StoreExcludedId(id: bv16) returns (slotWasFound: bool)
      modifies excludedIds
      ensures var free := FindId(old(excludedIds[..]), 0);
              && slotWasFound == free.Some?
              && excludedIds[..] == if free.None? then old(excludedIds[..]) else old(excludedIds[..])[free.value := id]
    {
      var i := 0;
      while i < excludedIds.Length
        invariant i <= excludedIds.Length && excludedIds[..] == old(excludedIds[..])
        invariant FindId(excludedIds[..], 0) == FindIdFrom(excludedIds[..], 0, i)
      {
        if excludedIds[i] == 0 {
          excludedIds[i] := id;
          return true;
        }
        i := i + 1;
      }
      slotWasFound := false;
    }

    /** `caller` is the current task; `created` and `env` are what creating the IO task comes to. */
    method VTraceEnable(caller: Handle, created: Handle, env: CreateEnv)
      requires Valid()
      modifies this, tcbProbes, excludedIds
      ensures Abs() == EnableTracing(cfg, old(Abs()), caller, created, env)
      ensures critical == old(critical) && unclosed == old(unclosed)
    {
      hide ExcludeTask, Register;
      if isEnabled {
        return;
      }
      if caller != NULL {
        PrvTraceError(EnabledAfterScheduler);
        return;
      }
      var saved := EnterCriticalSection();
      if cfg.includeIoTask {
        if ioTaskHandle == NULL {
          VTraceExcludeTask(cfg.ioTaskName);
          if created != NULL {
            PrvTraceRegisterTaskProbe(created, cfg.ioTaskName, 0, env);
          }
          ioTaskHandle := created;
          if ioTaskHandle == NULL {
            PrvTraceError(NoIoTask);
          }
        }
      }
      isEnabled := true;
      ExitCriticalSection(saved);
    }

    method VTraceDisable()
      modifies this`isEnabled
      ensures Abs() == old(Abs()).(enabled := false)
    {
      isEnabled := false;
    }

    // ----- Hooks -----

    method PrvTraceLogEvent(e: Event, ok: bool)
      requires Valid()
      modifies this
      ensures Abs() == LogEvent(old(Abs()), e, ok) && Balanced()
    {
      var saved := EnterCriticalSection();
      if isEnabled && currentTcb != NULL {
        var i := GetTcbProbe(currentTcb);
        if i == None {
          PrvTraceError(NoCurrentProbe);
          unclosed := unclosed + 1;
          return;
        }
        if !ok {
          PrvTraceError(LogFailed);
          unclosed := unclosed + 1;
          return;
        }
        RecordEvent(tcbProbes[i.value].probe, e);
      }
      ExitCriticalSection(saved);
    }

    method PrvTraceProduceSnapshot(ok: bool)
      requires Valid()
      modifies this, tcbProbes
      ensures Abs() == ProduceSnapshot(old(Abs()), ok) && Balanced()
    {
      var saved := EnterCriticalSection();
      if isEnabled && currentTcb != NULL {
        var i := GetTcbProbe(currentTcb);
        if i == None {
          PrvTraceError(NoCurrentProbe);
          unclosed := unclosed + 1;
          return;
        }
        if !ok {
          PrvTraceError(SnapshotFailed);
          unclosed := unclosed + 1;
          return;
        }
        var snapshot := TakeSnapshot(tcbProbes[i.value].probe);
        tcbProbes[i.value] := tcbProbes[i.value].(snapshot := snapshot);
      }
      ExitCriticalSection(saved);
    }

    method PrvTraceMergeSnapshot(ok: bool)
      requires Valid()
      modifies this
      ensures Abs() == MergeSnapshot(old(Abs()), ok) && Balanced()
    {
      var saved := EnterCriticalSection();
      if isEnabled && currentTcb != NULL && prevTcb != NULL {
        var curr := GetTcbProbe(currentTcb);
        if curr == None {
          PrvTraceError(NoCurrentProbe);
          unclosed := unclosed + 1;
          return;
        }
        var prev := GetTcbProbe(prevTcb);
        if prev == None {
          PrvTraceError(NoPreviousProbe);
          unclosed := unclosed + 1;
          return;
        }
        if !ok {
          PrvTraceError(MergeFailed);
          unclosed := unclosed + 1;
          return;
        }
        MergeSnapshotInto(tcbProbes[curr.value].probe, tcbProbes[prev.value].snapshot);
      }
      ExitCriticalSection(saved);
    }

    method PrvTraceSwitchedTcb(task: Handle) returns (didSwitch: bool)
      modifies this`currentTcb, this`prevTcb
      ensures Abs() == SwitchedTcb(old(Abs()), task)
      ensures didSwitch == (old(currentTcb) != task)
    {
      didSwitch := false;
      if currentTcb != task {
        prevTcb := currentTcb;
        currentTcb := task;
        didSwitch := true;
      }
    }

    method TraceTaskCreate(task: Handle, name: Bytes, priority: nat, env: CreateEnv)
      requires Valid()
      modifies this, tcbProbes
      ensures Abs() == Step(cfg, old(Abs()), Create(task, name, priority, env)) && Balanced()
    {
      hide Register;
      if task != NULL {
        PrvTraceRegisterTaskProbe(task, name, priority, env);
      }
    }

    method TraceTaskSwitchedIn(task: Handle, priority: nat, mergeOk: bool, recordOk: bool)
      requires Valid()
      modifies this
      ensures Abs() == Step(cfg, old(Abs()), SwitchedIn(task, priority, mergeOk, recordOk)) && Balanced()
    {
      hide Gate, LogEvent, MergeSnapshot;
      var passes := PassesFilter(task);
      if passes {
        var didSwitch := PrvTraceSwitchedTcb(task);
        if didSwitch {
          PrvTraceMergeSnapshot(mergeOk);
        }
        PrvTraceLogEvent(Event(TASK_SWITCHED_IN, Some(priority)), recordOk);
      }
    }

    method TraceTaskSwitchedOut(task: Handle, recordOk: bool, snapshotOk: bool)
      requires Valid()
      modifies this, tcbProbes
      ensures Abs() == Step(cfg, old(Abs()), SwitchedOut(task, recordOk, snapshotOk)) && Balanced()
    {
      hide Gate, LogEvent, ProduceSnapshot;
      var passes := PassesFilter(task);
      if passes {
        PrvTraceLogEvent(Event(TASK_SWITCHED_OUT, None), recordOk);
        PrvTraceProduceSnapshot(snapshotOk);
      }
    }

    /** The delay, suspend and queue hooks, once they have chosen their event. */
    method TraceHook(task: Handle, e: Event, recordOk: bool)
      requires Valid()
      modifies this
      ensures Abs() == Step(cfg, old(Abs()), Hook(task, e, recordOk)) && Balanced()
    {
      hide Gate, LogEvent;
      var passes := PassesFilter(task);
      if passes {
        PrvTraceLogEvent(e, recordOk);
      }
    }

    // ----- Control plane -----

    method TraceGetControlPlaneBuffer(task: Handle) returns (r: Option<seq<Message>>)
      requires Valid()
      modifies this`critical
      ensures critical == old(critical) && r == ControlPlaneBuffer(Abs(), task)
    {
      var saved := EnterCriticalSection();
      r := None;
      var i := GetTcbProbe(task);
      if i.Some? {
        r := tcbProbes[i.value].messages;
      }
      ExitCriticalSection(saved);
    }

    method ProcessControlMessage(probe: Option<nat>, m: Message)
      requires Exclusive(critical)
      modifies this`probes
      ensures Abs() == HandMessage(old(Abs()), probe, m)
    {
      if probe.Some? && probe.value < |probes| {
        var p := probes[probe.value];
        probes := probes[probe.value := p.(control := p.control + [m])];
      }
    }

    /** What follows the receipt of a message. */
    method ProcessReceived(probe: Option<nat>, m: Message, ok: bool)
      modifies this`critical, this`probes, this`isEnabled, this`errorMsg, this`raises
      ensures var s := HandMessage(old(Abs()), probe, m); Abs() == if ok then s else Raise(s, ControlMessageFailed)
      ensures critical == old(critical) && (isEnabled ==> old(isEnabled))
    {
      hide HandMessage;
      var saved := EnterCriticalSection();
      ProcessControlMessage(probe, m);
      ExitCriticalSection(saved);
      if !ok {
        PrvTraceError(ControlMessageFailed);
      }
    }

    method VTraceProcessControlPlaneMessages(task: Handle, ok: bool)
      requires Valid()
      modifies this, tcbProbes
      ensures Abs() == Step(cfg, old(Abs()), Process(task, ok)) && Balanced()
    {
      hide Enter, FindSlotFrom, HandMessage;
      var saved := EnterCriticalSection();
      var i := GetTcbProbe(task);
      ExitCriticalSection(saved);
      if i.Some? {
        var slot := tcbProbes[i.value];
        if slot.messages.Some? && slot.hasTaskBuffer {
          var messages := slot.messages.value;
          if messages != [] && |messages[0]| <= cfg.taskBufferSize {
            tcbProbes[i.value] := slot.(messages := Some(messages[1..]));
            if |messages[0]| != 0 {
              ProcessReceived(slot.probe, messages[0], ok);
            }
          }
        }
      }
    }

    /** The body of the routing loop. */
    method SendToSlot(i: nat, m: Message, to: Destination)
      requires Valid() && i < tcbProbes.Length
      modifies tcbProbes
      ensures tcbProbes[..] == old(tcbProbes[..])[i :=
                RouteToSlot(cfg, old(tcbProbes[i]), ProbeId(old(Abs()), old(tcbProbes[i].tcb)), m, to)]
    {
      hide HasRoom, ReadLower16, Reaches;
      var slot := tcbProbes[i];
      if slot.tcb != NULL && slot.messages.Some? {
        var word := TaskNumber(slot.tcb);
        var id := ReadLower16(word);
        if Reaches(to, id) {
          if HasRoom(cfg, slot.messages.value, m) {
            tcbProbes[i] := slot.(messages := Some(slot.messages.value + [m]));
          }
        }
      }
    }

    /** The routing loop of the IO task. */
    method RouteMessage(m: Message, to: Option<Destination>)
      requires Valid()
      modifies tcbProbes
      ensures Abs() == Step(cfg, old(Abs()), Deliver(m, to))
    {
      hide RouteToSlot, ProbeId;
      if |m| > 0 && to.Some? {
        var i := 0;
        ghost var s := Abs();
        while i < tcbProbes.Length
          invariant i <= tcbProbes.Length
          invariant Abs() == s.(slots := tcbProbes[..])
          invariant forall j :: 0 <= j < i ==>
            tcbProbes[j] == RouteToSlot(cfg, s.slots[j], ProbeId(s, s.slots[j].tcb), m, to.value)
          invariant forall j :: i <= j < tcbProbes.Length ==> tcbProbes[j] == s.slots[j]
          modifies tcbProbes
        {
          ghost var before := tcbProbes[..];
          IdsIgnoreSlots(s, before, s.slots[i].tcb);
          SendToSlot(i, m, to.value);
          assert forall j :: 0 <= j < tcbProbes.Length && j != i ==> tcbProbes[j] == before[j];
          i := i + 1;
        }
        assert tcbProbes[..] == Route(cfg, s, m, to).slots;
      }
    }
  }

  lemma IdsIgnoreSlots(s: State, slots: seq<Slot>, task: Handle)
    ensures ProbeId(s.(slots := slots), task) == ProbeId(s, task)
  {
    hide ReadLower16;
  }
}
