/** A registration, exactly: what it leaves behind, and which error it raises first. */
module Registration {
  import opened Options
  import opened ProbeIdHash
  import opened Registry
  import opened Trace

  /** Where the storage of the next probe starts, if there is any. */
  ghost function StorageFor(cfg: Config, s: State, env: CreateEnv): Option<nat> {
    if cfg.staticAllocation then AllocStorage(cfg, s.nextStorage).0 else if env.storage then Some(0) else None
  }

  /** A probe is made: the task is not excluded, has an id, and gets storage, and the library makes the probe. */
  ghost predicate Makes(cfg: Config, s: State, name: Bytes, env: CreateEnv) {
    HashName(name) !in s.excluded && HashName(name) != 0 && StorageFor(cfg, s, env).Some? && env.initialize
  }

  /** A slot is filled: besides, there is a free one, and the first snapshot can be taken. */
  ghost predicate Fills(cfg: Config, s: State, name: Bytes, env: CreateEnv) {
    Makes(cfg, s, name, env) && FindSlot(s.slots, NULL).Some? && env.snapshot
  }

  /** Both control plane buffers can be had, and are wanted. */
  predicate GetsBuffers(cfg: Config, env: CreateEnv) {
    cfg.controlPlane && env.messageBuffer && env.taskBuffer
  }

  /** The first thing to go wrong. */
  ghost function FirstFailure(cfg: Config, s: State, name: Bytes, env: CreateEnv): Option<Error> {
    if HashedLength(name) == 0 then Some(EmptyName)
    else if HashName(name) in s.excluded then None
    else if StorageFor(cfg, s, env).None? then Some(NoStorage)
    else if HashName(name) == 0 then None
    else if !env.initialize then Some(ProbeInitFailed)
    else if FindSlot(s.slots, NULL).None? then Some(NoProbeSlots)
    else if !env.snapshot then Some(SnapshotFailed)
    else if cfg.controlPlane && !env.messageBuffer then Some(NoMessageBuffer)
    else if cfg.controlPlane && !env.taskBuffer then Some(NoTaskBuffer)
    else if !env.record then Some(CreateEventFailed)
    else None
  }

  /** `t` has the error that `s` had, or else the failure, and tracing is on if it was and there is no failure. */
  ghost predicate FailsWith(s: State, t: State, failure: Option<Error>) {
    && t.enabled == (s.enabled && failure.None?)
    && t.error == (if s.error.Some? || failure.None? then s.error else failure)
  }

  ghost function NewProbe(id: bv16, storage: nat, p: nat, priority: nat, recorded: bool): Probe {
    if recorded then Probe(id, storage, [Event(TASK_CREATE, Some(priority))], {Stamp(p, 0)}, [])
    else Probe(id, storage, [], {}, [])
  }

  /** What the table is after the registration. */
  ghost predicate TableAfter(cfg: Config, s: State, t: State, task: Handle, name: Bytes, priority: nat,
                             env: CreateEnv) {
    var p, both := |s.probes|, GetsBuffers(cfg, env);
    && t.probes == (if Makes(cfg, s, name, env) then
                      s.probes + [NewProbe(HashName(name), StorageFor(cfg, s, env).value, p, priority, env.record)]
                    else s.probes)
    && t.slots == (if Fills(cfg, s, name, env) then
                     s.slots[FindSlot(s.slots, NULL).value :=
                       Slot(task, Some(p), Snapshot(p, {}), if both then Some([]) else None, both)]
                   else s.slots)
    && Filter(t, task) == (if Makes(cfg, s, name, env) then 0xFFFF else 0) && ProbeId(t, task) == HashName(name)
    && t.unclosed == s.unclosed + (if Makes(cfg, s, name, env) && !env.record then 1 else 0)
  }

  lemma AllocOutcome(cfg: Config, s: State, id: bv16, env: CreateEnv)
    ensures var (t, p) := AllocProbe(cfg, s, id, env);
            var storage := StorageFor(cfg, s, env);
            var makes := storage.Some? && id != 0 && env.initialize;
            && t == s.(enabled := t.enabled, error := t.error, raises := t.raises, nextStorage := t.nextStorage,
                       probes := t.probes)
            && p == (if makes then Some(|s.probes|) else None)
            && t.probes == (if makes then s.probes + [Probe(id, storage.value, [], {}, [])] else s.probes)
            && FailsWith(s, t, if storage.None? then Some(NoStorage)
                               else if id != 0 && !env.initialize then Some(ProbeInitFailed) else None)
  {
  }

  lemma AddOutcome(cfg: Config, s: State, task: Handle, p: nat, env: CreateEnv)
    requires SlotsInOrder(s.slots) && p < |s.probes| && s.probes[p].past == {}
    ensures var t, free, both := AddTcbProbe(cfg, s, task, p, env), FindSlot(s.slots, NULL), GetsBuffers(cfg, env);
            && t == s.(enabled := t.enabled, error := t.error, raises := t.raises, slots := t.slots)
            && t.slots == (if free.Some? && env.snapshot then
                             s.slots[free.value :=
                               Slot(task, Some(p), Snapshot(p, {}), if both then Some([]) else None, both)]
                           else s.slots)
            && FailsWith(s, t, if free.None? then Some(NoProbeSlots)
                               else if !env.snapshot then Some(SnapshotFailed)
                               else if cfg.controlPlane && !env.messageBuffer then Some(NoMessageBuffer)
                               else if cfg.controlPlane && !env.taskBuffer then Some(NoTaskBuffer)
                               else None)
  {
    hide FindSlotFrom;
    var free := FindSlot(s.slots, NULL);
    assert free.Some? ==> s.slots[free.value] == FREE_SLOT;
  }

  lemma RecordOutcome(s: State, p: nat, e: Event)
    requires p < |s.probes|
    ensures var t, was := Record(s, Some(p), e), s.probes[p];
            && t == s.(probes := t.probes)
            && t.probes == s.probes[p := was.(log := was.log + [e], past := was.past + {Stamp(p, |was.log|)})]
  {
  }

  lemma ReplaceLast(ps: seq<Probe>, a: Probe, b: Probe)
    ensures (ps + [a])[|ps| := b] == ps + [b]
  {
  }

  lemma IdentifiedOutcome(s: State, task: Handle, name: Bytes)
    requires task != NULL
    ensures FailsWith(s, Identified(s, task, name), if HashedLength(name) == 0 then Some(EmptyName) else None)
  {
    hide HashName, SetFilter, SetProbeId, Filter, ProbeId, HashedLength;
    var s1 := HashOrRaise(s, name);
    var s2 := SetProbeId(s1, task, HashName(name));
    SetProbeIdEffect(s1, task, HashName(name));
    SetFilterEffect(s2, task, 0);
    var t := SetFilter(s2, task, 0);
    assert t == Identified(s, task, name);
    assert FailsWith(s, s1, if HashedLength(name) == 0 then Some(EmptyName) else None);
    assert s2.enabled == s1.enabled && s2.error == s1.error;
    assert t.enabled == s1.enabled && t.error == s1.error;
  }

  /** What follows the making of a probe, whose log is still empty. */
  lemma InstallOutcome(cfg: Config, s: State, task: Handle, p: nat, priority: nat, env: CreateEnv)
    requires task != NULL && SlotsInOrder(s.slots) && p + 1 == |s.probes|
    requires s.probes[p] == Probe(s.probes[p].id, s.probes[p].storage, [], {}, [])
    ensures var s4 := SetFilter(AddTcbProbe(cfg, s, task, p, env), task, 0xFFFF);
            var t := if env.record then Record(s4, Some(p), Event(TASK_CREATE, Some(priority)))
                     else Abort(s4, CreateEventFailed);
            var free, both := FindSlot(s.slots, NULL), GetsBuffers(cfg, env);
            && t.probes == s.probes[p := NewProbe(s.probes[p].id, s.probes[p].storage, p, priority, env.record)]
            && t.slots == (if free.Some? && env.snapshot then
                             s.slots[free.value :=
                               Slot(task, Some(p), Snapshot(p, {}), if both then Some([]) else None, both)]
                           else s.slots)
            && Filter(t, task) == 0xFFFF && ProbeId(t, task) == ProbeId(s, task)
            && t.unclosed == s.unclosed + (if env.record then 0 else 1)
            && FailsWith(s, t, if free.None? then Some(NoProbeSlots)
                               else if !env.snapshot then Some(SnapshotFailed)
                               else if cfg.controlPlane && !env.messageBuffer then Some(NoMessageBuffer)
                               else if cfg.controlPlane && !env.taskBuffer then Some(NoTaskBuffer)
                               else if !env.record then Some(CreateEventFailed)
                               else None)
  {
    hide FindSlot, Filter, ProbeId, SetFilter;
    AddOutcome(cfg, s, task, p, env);
    var s3 := AddTcbProbe(cfg, s, task, p, env);
    hide AddTcbProbe;
    NumbersCarry(s, s3);
    SetFilterEffect(s3, task, 0xFFFF);
    var s4, e := SetFilter(s3, task, 0xFFFF), Event(TASK_CREATE, Some(priority));
    RecordOutcome(s4, p, e);
    hide Record;
    var made := NewProbe(s.probes[p].id, s.probes[p].storage, p, priority, true);
    assert [] + [e] == [e] && {} + {Stamp(p, 0)} == {Stamp(p, 0)};
    assert env.record ==> Record(s4, Some(p), e).probes[p] == made;
    assert Record(s4, Some(p), e).probes == s.probes[p := made];
    assert s.probes[p := s.probes[p]] == s.probes;
    NumbersCarry(s4, Record(s4, Some(p), e));
    NumbersCarry(s4, Abort(s4, CreateEventFailed));
  }

  lemma NotMade(cfg: Config, s: State, task: Handle, name: Bytes, priority: nat, env: CreateEnv)
    requires s.enabled && task != NULL && !Makes(cfg, s, name, env)
    ensures var t := Register(cfg, s, task, name, priority, env);
            TableAfter(cfg, s, t, task, name, priority, env) && FailsWith(s, t, FirstFailure(cfg, s, name, env))
  {
    var id, s1 := HashName(name), Identified(s, task, name);
    EmptyIsZero(name);
    hide HashName, Register, Identified, AllocStorage, Filter, ProbeId, FindSlot, SetFilter, AddTcbProbe, Record, Abort,
         HashedLength, NewProbe;
    IdentifiedEffect(s, task, name);
    IdentifiedOutcome(s, task, name);
    RegisterUnfolds(cfg, s, task, name, priority, env);
    if id !in s.excluded {
      AllocOutcome(cfg, s1, id, env);
      hide AllocProbe;
      NumbersCarry(s1, AllocProbe(cfg, s1, id, env).0);
    }
  }

  lemma Made(cfg: Config, s: State, task: Handle, name: Bytes, priority: nat, env: CreateEnv)
    requires s.enabled && task != NULL && SlotsInOrder(s.slots) && Makes(cfg, s, name, env)
    ensures var t := Register(cfg, s, task, name, priority, env);
            TableAfter(cfg, s, t, task, name, priority, env) && FailsWith(s, t, FirstFailure(cfg, s, name, env))
  {
    var id, p, s1 := HashName(name), |s.probes|, Identified(s, task, name);
    EmptyIsZero(name);
    hide HashName, Register, Identified, AllocStorage, Filter, ProbeId, FindSlot, SetFilter, AddTcbProbe, Record, Abort,
         HashedLength, SlotsInOrder;
    IdentifiedEffect(s, task, name);
    IdentifiedOutcome(s, task, name);
    RegisterUnfolds(cfg, s, task, name, priority, env);
    AllocOutcome(cfg, s1, id, env);
    var s2 := AllocProbe(cfg, s1, id, env).0;
    hide AllocProbe;
    NumbersCarry(s1, s2);
    InstallOutcome(cfg, s2, task, p, priority, env);
    ReplaceLast(s.probes, s2.probes[p], NewProbe(id, StorageFor(cfg, s, env).value, p, priority, env.record));
    hide NewProbe;
  }

  /**
   * For every registration while tracing is on, and whatever may fail in it: which probe and which slot there are
   * afterwards, with which buffers, filter and id; which error is recorded; and whether a section is left open.
   */
  lemma RegistrationIsExact(cfg: Config, s: State, task: Handle, name: Bytes, priority: nat, env: CreateEnv)
    requires s.enabled && task != NULL && SlotsInOrder(s.slots)
    ensures var t := Register(cfg, s, task, name, priority, env);
            TableAfter(cfg, s, t, task, name, priority, env) && FailsWith(s, t, FirstFailure(cfg, s, name, env))
  {
    hide *;
    if Makes(cfg, s, name, env) {
      Made(cfg, s, task, name, priority, env);
    } else {
      NotMade(cfg, s, task, name, priority, env);
    }
  }

  lemma EmptyIsZero(name: Bytes)
    ensures HashedLength(name) == 0 ==> HashName(name) == 0
  {
  }
}
