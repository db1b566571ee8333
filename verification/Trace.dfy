/**
 * The state of the tracing backend, and what each of its entry points does to it.
 *
 * Handles, probes and buffers are numbered; 0 is the NULL handle. The kernel keeps one word per
 * task. The probe library is known by a contract only: recording an event appends it to a log and
 * adds it to the probe's causal past, a snapshot copies that past, a merge adds a snapshot to it,
 * and a call that fails changes nothing.
 */
module Trace {
  import opened Options
  import opened ProbeIdHash
  import opened Port

  type Handle = nat
  const NULL: Handle := 0

  type Message = seq<bv8>

  datatype Error =
    | EnabledAfterScheduler
    | NoIoTask
    | NoExcludedSlots
    | EmptyName
    | NoStorage
    | ProbeInitFailed
    | SnapshotFailed
    | NoProbeSlots
    | NoMessageBuffer
    | NoTaskBuffer
    | CreateEventFailed
    | NoCurrentProbe
    | NoPreviousProbe
    | MergeFailed
    | LogFailed
    | ControlMessageFailed
    | IoReadFailed
    | IoWriteFailed
    | ReportFailed

  datatype Event = Event(id: nat, payload: Option<nat>)

  const TASK_CREATE: nat := 0xFFFE
  const TASK_SWITCHED_IN: nat := 0xFFFD
  const TASK_SWITCHED_OUT: nat := 0xFFFC

  // ----- The probe library -----

  /** Names one logged event: entry `index` of the log of probe `probe`. */
  datatype Stamp = Stamp(probe: nat, index: nat)

  datatype Snapshot = Zeroed | Snapshot(origin: nat, past: set<Stamp>)

  datatype Probe = Probe(id: bv16, storage: nat, log: seq<Event>, past: set<Stamp>, control: seq<Message>)

  /** A successful merge: the probe merged into, and what was merged. */
  datatype Merge = Merge(into: nat, snapshot: Snapshot)

  // ----- The backend -----

  datatype Slot = Slot(
    tcb: Handle,
    probe: Option<nat>,
    snapshot: Snapshot,
    messages: Option<seq<Message>>,  // the control plane message buffer, and what is in it
    hasTaskBuffer: bool)

  const FREE_SLOT := Slot(NULL, None, Zeroed, None, false)

  datatype Config = Config(
    maxProbes: nat,
    maxExcluded: nat,
    staticAllocation: bool,
    storageSize: nat,
    probeSize: nat,
    sizeMax: nat,  // the largest size_t
    includeIoTask: bool,
    ioTaskName: Bytes,
    maxNameLength: nat,  // how much of a task's name the kernel keeps
    ioBufferSize: nat,
    controlPlane: bool,
    messageBufferSize: nat,
    lengthPrefix: nat,  // what a message buffer spends on each message besides its bytes
    taskBufferSize: nat)
  {
    ghost predicate Valid() {
      storageSize <= sizeMax && probeSize <= sizeMax
    }
  }

  datatype State = State(
    enabled: bool,
    error: Option<Error>,
    current: Handle,
    previous: Handle,
    slots: seq<Slot>,
    excluded: seq<bv16>,
    nextStorage: nat,
    ioTask: Handle,
    raises: nat,  // errors raised, recorded or not
    unclosed: nat,  // critical sections entered and never left
    numbers: map<Handle, bv32>,
    probes: seq<Probe>,
    merges: seq<Merge>)

  function Init(cfg: Config): State {
    State(false, None, NULL, NULL, seq(cfg.maxProbes, _ => FREE_SLOT), seq(cfg.maxExcluded, _ => 0),
          0, NULL, 0, 0, map[], [], [])
  }

  // ----- Errors -----

  /** `prvTraceError`. */
  function Raise(s: State, e: Error): State {
    s.(enabled := false, error := if s.error.None? then Some(e) else s.error, raises := s.raises + 1)
  }

  /** A TRACE_ASSERT that fails inside a critical section returns without leaving it. */
  function Abort(s: State, e: Error): State {
    Raise(s, e).(unclosed := s.unclosed + 1)
  }

  // ----- Task numbers -----

  function Number(s: State, task: Handle): bv32 {
    if task in s.numbers then s.numbers[task] else 0
  }

  function Filter(s: State, task: Handle): bv16 {
    ReadUpper16(Number(s, task))
  }

  function ProbeId(s: State, task: Handle): bv16 {
    ReadLower16(Number(s, task))
  }

  /** The gate of every hook: `TRACE_GET_TASK_FILTER(current) & TRACE_GET_FILTER_MASK()`. */
  predicate Gate(s: State, task: Handle) {
    Filter(s, task) & 0xFFFF != 0
  }

  function SetNumber(s: State, task: Handle, word: bv32): State {
    if task == NULL then s else s.(numbers := s.numbers[task := word])
  }

  function SetProbeId(s: State, task: Handle, id: bv16): State {
    SetNumber(s, task, WriteLower16(Number(s, task), id))
  }

  function SetFilter(s: State, task: Handle, filter: bv16): State {
    SetNumber(s, task, WriteUpper16(Number(s, task), filter))
  }

  // ----- Searching the fixed arrays -----

  /** The first slot of `task`; the first free slot for NULL. */
  function FindSlot(slots: seq<Slot>, task: Handle): (r: Option<nat>)
    ensures r.Some? ==> r.value < |slots| && slots[r.value].tcb == task
    ensures r.Some? ==> forall i :: 0 <= i < r.value ==> slots[i].tcb != task
    ensures r.None? ==> forall i :: 0 <= i < |slots| ==> slots[i].tcb != task
  {
    FindSlotFrom(slots, task, 0)
  }

  function FindSlotFrom(slots: seq<Slot>, task: Handle, from: nat): (r: Option<nat>)
    requires from <= |slots|
    ensures r.Some? ==> from <= r.value < |slots| && slots[r.value].tcb == task
    ensures r.Some? ==> forall i :: from <= i < r.value ==> slots[i].tcb != task
    ensures r.None? ==> forall i :: from <= i < |slots| ==> slots[i].tcb != task
    decreases |slots| - from
  {
    if from == |slots| then None
    else if slots[from].tcb == task then Some(from)
    else FindSlotFrom(slots, task, from + 1)
  }

  /** The first entry of the exclusion list equal to `id`; the first free entry for 0. */
  function FindId(ids: seq<bv16>, id: bv16): (r: Option<nat>)
    ensures r.Some? ==> r.value < |ids| && ids[r.value] == id
    ensures r.Some? ==> forall i :: 0 <= i < r.value ==> ids[i] != id
    ensures r.None? <==> id !in ids
  {
    FindIdFrom(ids, id, 0)
  }

  function FindIdFrom(ids: seq<bv16>, id: bv16, from: nat): (r: Option<nat>)
    requires from <= |ids|
    ensures r.Some? ==> from <= r.value < |ids| && ids[r.value] == id
    ensures r.Some? ==> forall i :: from <= i < r.value ==> ids[i] != id
    ensures r.None? <==> id !in ids[from..]
    decreases |ids| - from
  {
    if from == |ids| then None
    else if ids[from] == id then Some(from)
    else FindIdFrom(ids, id, from + 1)
  }

  // ----- Calls into the probe library -----

  function Record(s: State, probe: Option<nat>, e: Event): State {
    if probe.Some? && probe.value < |s.probes| then
      var p := probe.value;
      var was := s.probes[p];
      s.(probes := s.probes[p := was.(log := was.log + [e], past := was.past + {Stamp(p, |was.log|)})])
    else s
  }

  function Produce(s: State, probe: Option<nat>): Snapshot {
    if probe.Some? && probe.value < |s.probes| then Snapshot(probe.value, s.probes[probe.value].past) else Zeroed
  }

  function MergeInto(s: State, probe: Option<nat>, snapshot: Snapshot): State {
    if probe.Some? && probe.value < |s.probes| && snapshot.Snapshot? then
      var p := probe.value;
      s.(probes := s.probes[p := s.probes[p].(past := s.probes[p].past + snapshot.past)],
         merges := s.merges + [Merge(p, snapshot)])
    else s
  }

  // ----- Registration -----

  /** Which calls made while a task is registered succeed. */
  datatype CreateEnv = CreateEnv(
    storage: bool,  // only consulted without static allocation
    initialize: bool,
    snapshot: bool,
    messageBuffer: bool,
    taskBuffer: bool,
    record: bool)

  /** `alloc_storage`: where the storage starts, if it is granted, and the next index. */
  function AllocStorage(cfg: Config, next: nat): (Option<nat>, nat) {
    var end := (next + cfg.probeSize) % (cfg.sizeMax + 1);
    if end <= cfg.storageSize then (Some(next), end) else (None, next)
  }

  /** `alloc_probe`. */
  function AllocProbe(cfg: Config, s: State, id: bv16, env: CreateEnv): (State, Option<nat>) {
    var (storage, next) :=
      if cfg.staticAllocation then AllocStorage(cfg, s.nextStorage)
      else (if env.storage then Some(0) else None, s.nextStorage);
    var s1 := s.(nextStorage := next);
    if storage.None? then (Raise(s1, NoStorage), None)
    else if id == 0 then (s1, None)
    else if env.initialize then
      (s1.(probes := s1.probes + [Probe(id, storage.value, [], {}, [])]), Some(|s1.probes|))
    else (Raise(s1, ProbeInitFailed), None)
  }

  /** The control plane part of `add_tcb_probe`, for slot `i`. */
  function AddBuffers(cfg: Config, s: State, i: nat, env: CreateEnv): State
    requires i < |s.slots|
  {
    if !cfg.controlPlane then s
    else
      var s1 := if env.messageBuffer then s else Raise(s, NoMessageBuffer);
      var s2 := if env.taskBuffer then s1 else Raise(s1, NoTaskBuffer);
      if env.messageBuffer && env.taskBuffer then
        s2.(slots := s2.slots[i := s2.slots[i].(messages := Some([]), hasTaskBuffer := true)])
      else s2
  }

  /** `add_tcb_probe`. */
  function AddTcbProbe(cfg: Config, s: State, task: Handle, probe: nat, env: CreateEnv): State {
    match FindSlot(s.slots, NULL)
    case None => Raise(s, NoProbeSlots)
    case Some(i) =>
      if !env.snapshot then Raise(s, SnapshotFailed)
      else
        var slot := s.slots[i].(tcb := task, probe := Some(probe), snapshot := Produce(s, Some(probe)));
        AddBuffers(cfg, s.(slots := s.slots[i := slot]), i, env)
  }

  /** `probe_id_hash`, with the effect of its length assertion. */
  function HashOrRaise(s: State, name: Bytes): State {
    if HashedLength(name) == 0 then Raise(s, EmptyName) else s
  }

  /** `prvTraceRegisterTaskProbe`. */
  function Register(cfg: Config, s: State, task: Handle, name: Bytes, priority: nat, env: CreateEnv): State {
    if !s.enabled then s
    else
      var id := HashName(name);
      var s1 := SetFilter(SetProbeId(HashOrRaise(s, name), task, id), task, 0);
      if id in s1.excluded then s1
      else
        var (s2, probe) := AllocProbe(cfg, s1, id, env);
        if probe.None? then s2
        else
          var s3 := SetFilter(AddTcbProbe(cfg, s2, task, probe.value, env), task, 0xFFFF);
          if env.record then Record(s3, probe, Event(TASK_CREATE, Some(priority)))
          else Abort(s3, CreateEventFailed)
  }

  // ----- Configuration calls -----

  /** `vTraceExcludeTask`. */
  function ExcludeTask(s: State, name: Bytes): State {
    var s1 := HashOrRaise(s, name);
    match FindId(s1.excluded, 0)
    case None => Raise(s1, NoExcludedSlots)
    case Some(i) => s1.(excluded := s1.excluded[i := HashName(name)])
  }

  /** Whether `vTraceEnable` goes on to set up the IO task. */
  predicate SetsUpIoTask(cfg: Config, s: State, caller: Handle) {
    !s.enabled && caller == NULL && cfg.includeIoTask && s.ioTask == NULL
  }

  /**
   * `vTraceEnable`, called while `caller` is the current task. The kernel returns the handle
   * `created` for the IO task, or NULL, and runs the create hook for it.
   */
  function EnableTracing(cfg: Config, s: State, caller: Handle, created: Handle, env: CreateEnv): State {
    if s.enabled then s
    else if caller != NULL then Raise(s, EnabledAfterScheduler)
    else if SetsUpIoTask(cfg, s, caller) then
      var s1 := ExcludeTask(s, cfg.ioTaskName);
      var s2 := if created != NULL then Register(cfg, s1, created, cfg.ioTaskName, 0, env) else s1;
      var s3 := s2.(ioTask := created);
      var s4 := if created == NULL then Raise(s3, NoIoTask) else s3;
      s4.(enabled := true)
    else s.(enabled := true)
  }

  // ----- Hooks -----

  /** `prvTraceLogEvent` and `prvTraceLogEventWithPayload`. */
  function LogEvent(s: State, e: Event, ok: bool): State {
    if s.enabled && s.current != NULL then
      match FindSlot(s.slots, s.current)
      case None => Abort(s, NoCurrentProbe)
      case Some(i) => if ok then Record(s, s.slots[i].probe, e) else Abort(s, LogFailed)
    else s
  }

  /** `prvTraceProduceSnapshot`. */
  function ProduceSnapshot(s: State, ok: bool): State {
    if s.enabled && s.current != NULL then
      match FindSlot(s.slots, s.current)
      case None => Abort(s, NoCurrentProbe)
      case Some(i) =>
        if ok then s.(slots := s.slots[i := s.slots[i].(snapshot := Produce(s, s.slots[i].probe))])
        else Abort(s, SnapshotFailed)
    else s
  }

  /** `prvTraceMergeSnapshot`. */
  function MergeSnapshot(s: State, ok: bool): State {
    if s.enabled && s.current != NULL && s.previous != NULL then
      match FindSlot(s.slots, s.current)
      case None => Abort(s, NoCurrentProbe)
      case Some(i) =>
        match FindSlot(s.slots, s.previous)
        case None => Abort(s, NoPreviousProbe)
        case Some(j) =>
          if ok then MergeInto(s, s.slots[i].probe, s.slots[j].snapshot) else Abort(s, MergeFailed)
    else s
  }

  /** `prvTraceSwitchedTCB`. */
  function SwitchedTcb(s: State, task: Handle): State {
    if s.current != task then s.(previous := s.current, current := task) else s
  }

  /** `traceTASK_SWITCHED_IN`. */
  function SwitchIn(s: State, task: Handle, priority: nat, mergeOk: bool, recordOk: bool): State {
    if Gate(s, task) then
      var s1 := SwitchedTcb(s, task);
      var s2 := if s.current != task then MergeSnapshot(s1, mergeOk) else s1;
      LogEvent(s2, Event(TASK_SWITCHED_IN, Some(priority)), recordOk)
    else s
  }

  /** `traceTASK_SWITCHED_OUT`. */
  function SwitchOut(s: State, task: Handle, recordOk: bool, snapshotOk: bool): State {
    if Gate(s, task) then
      ProduceSnapshot(LogEvent(s, Event(TASK_SWITCHED_OUT, None), recordOk), snapshotOk)
    else s
  }

  /** Every other hook, run while `task` is current: the gate, and then one event. */
  function GatedLog(s: State, task: Handle, e: Event, ok: bool): State {
    if Gate(s, task) then LogEvent(s, e, ok) else s
  }

  // ----- Control plane -----

  datatype Destination = Broadcast | ToProbe(id: bv32)

  function Occupied(cfg: Config, messages: seq<Message>): nat {
    if messages == [] then 0
    else Occupied(cfg, messages[..|messages| - 1]) + |messages[|messages| - 1]| + cfg.lengthPrefix
  }

  /** Whether a message buffer has room. */
  predicate HasRoom(cfg: Config, messages: seq<Message>, m: Message) {
    Occupied(cfg, messages) + |m| + cfg.lengthPrefix <= cfg.messageBufferSize
  }

  predicate Reaches(to: Destination, id: bv16) {
    to.Broadcast? || to.id == id as bv32
  }

  predicate Addressed(slot: Slot, id: bv16, to: Destination) {
    slot.tcb != NULL && slot.messages.Some? && Reaches(to, id)
  }

  /** One pass of the routing loop, for a slot whose task has probe id `id`: `xMessageBufferSend` with no wait. */
  function RouteToSlot(cfg: Config, slot: Slot, id: bv16, m: Message, to: Destination): Slot {
    if Addressed(slot, id, to) && HasRoom(cfg, slot.messages.value, m) then
      slot.(messages := Some(slot.messages.value + [m]))
    else slot
  }

  /** The IO task's handling of a message read from the control plane; `to` is None for an invalid one. */
  function Route(cfg: Config, s: State, m: Message, to: Option<Destination>): State {
    if m == [] || to.None? then s
    else s.(slots := seq(|s.slots|, i requires 0 <= i < |s.slots| =>
                         RouteToSlot(cfg, s.slots[i], ProbeId(s, s.slots[i].tcb), m, to.value)))
  }

  /** `vTraceProcessControlPlaneMessages`, called by `task`. */
  function ProcessMessages(cfg: Config, s: State, task: Handle, ok: bool): State {
    match FindSlot(s.slots, task)
    case None => s
    case Some(i) =>
      var slot := s.slots[i];
      if slot.messages.Some? && slot.hasTaskBuffer && slot.messages.value != []
         && |slot.messages.value[0]| <= cfg.taskBufferSize
      then
        var m := slot.messages.value[0];
        var s1 := s.(slots := s.slots[i := slot.(messages := Some(slot.messages.value[1..]))]);
        if m == [] then s1
        else
          var s2 := HandMessage(s1, slot.probe, m);
          if ok then s2 else Raise(s2, ControlMessageFailed)
      else s
  }

  /** `modality_probe_process_control_message`. */
  function HandMessage(s: State, probe: Option<nat>, m: Message): State {
    if probe.Some? && probe.value < |s.probes| then
      var p := s.probes[probe.value];
      s.(probes := s.probes[probe.value := p.(control := p.control + [m])])
    else s
  }

  /** `pvTraceGetControlPlaneBuffer`, called by `task`. */
  function ControlPlaneBuffer(s: State, task: Handle): Option<seq<Message>> {
    match FindSlot(s.slots, task)
    case None => None
    case Some(i) => s.slots[i].messages
  }

  // ----- Steps -----

  datatype Op =
    | Enable(caller: Handle, ioTask: Handle, ioEnv: CreateEnv)
    | Disable
    | Exclude(name: Bytes)
    | Create(task: Handle, name: Bytes, priority: nat, env: CreateEnv)
    | SwitchedIn(task: Handle, priority: nat, mergeOk: bool, recordOk: bool)
    | SwitchedOut(task: Handle, recordOk: bool, snapshotOk: bool)
    | Hook(task: Handle, event: Event, recordOk: bool)
    | Deliver(message: Message, to: Option<Destination>)
    | Process(task: Handle, ok: bool)
    | IoFailure(what: Error)

  function Step(cfg: Config, s: State, op: Op): State {
    match op
    case Enable(caller, ioTask, env) => EnableTracing(cfg, s, caller, ioTask, env)
    case Disable => s.(enabled := false)
    case Exclude(name) => ExcludeTask(s, name)
    case Create(task, name, priority, env) =>
      if task == NULL then s else Register(cfg, s, task, name, priority, env)
    case SwitchedIn(task, priority, mergeOk, recordOk) => SwitchIn(s, task, priority, mergeOk, recordOk)
    case SwitchedOut(task, recordOk, snapshotOk) => SwitchOut(s, task, recordOk, snapshotOk)
    case Hook(task, e, ok) => GatedLog(s, task, e, ok)
    case Deliver(m, to) => Route(cfg, s, m, to)
    case Process(task, ok) => ProcessMessages(cfg, s, task, ok)
    case IoFailure(e) => Raise(s, e)
  }

  /** The state after a run, from the initial one. */
  function Run(cfg: Config, ops: seq<Op>): State {
    if ops == [] then Init(cfg) else Step(cfg, Run(cfg, ops[..|ops| - 1]), ops[|ops| - 1])
  }

  // ----- The kernel -----

  /** What the kernel knows: the tasks and their names, and the task that is running, if any. */
  datatype Kernel = Kernel(names: map<Handle, Bytes>, reserved: set<Handle>, running: Handle, started: bool)

  const BOOT := Kernel(map[], {}, NULL, false)

  /**
   * What the kernel may do next. Handles are never used twice. The running task changes by a
   * switch out and then a switch in, with no hook of a task between them. Before the first switch
   * in, hooks may run with any current task. A message the IO task reads fits the buffer it reads into.
   */
  predicate Allowed(cfg: Config, k: Kernel, op: Op) {
    match op
    case Enable(caller, ioTask, _) =>
      (k.started ==> caller != NULL) && ioTask !in k.names && ioTask !in k.reserved
    case Create(task, name, _, _) => task != NULL && task !in k.names && task !in k.reserved
    case SwitchedIn(task, _, _, _) => k.running == NULL && (task in k.names || task in k.reserved)
    case SwitchedOut(task, _, _) => k.running == task != NULL
    case Hook(task, _, _) => if k.started then k.running == task != NULL else true
    case Deliver(m, _) => |m| <= cfg.ioBufferSize
    case Process(task, _) => k.running != NULL ==> task == k.running
    case _ => true
  }

  function KernelStep(k: Kernel, op: Op): Kernel {
    match op
    case Enable(_, ioTask, _) => if ioTask != NULL then k.(reserved := k.reserved + {ioTask}) else k
    case Create(task, name, _, _) => k.(names := k.names[task := name])
    case SwitchedIn(task, _, _, _) => k.(running := task, started := true)
    case SwitchedOut(_, _, _) => k.(running := NULL)
    case _ => k
  }

  function KernelRun(ops: seq<Op>): Kernel {
    if ops == [] then BOOT else KernelStep(KernelRun(ops[..|ops| - 1]), ops[|ops| - 1])
  }

  predicate Legal(cfg: Config, ops: seq<Op>) {
    ops != [] ==> Legal(cfg, ops[..|ops| - 1]) && Allowed(cfg, KernelRun(ops[..|ops| - 1]), ops[|ops| - 1])
  }
}
