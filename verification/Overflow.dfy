/** When the storage index can wrap, some run gives a traced task storage that lies outside the array. */
module Overflow {
  import opened Arena
  import opened Arithmetic
  import opened Options
  import opened ProbeIdHash
  import opened Registry
  import opened Runs
  import opened Trace

  /** The probe of slot `i` has its region inside the array. */
  ghost predicate InBounds(cfg: Config, s: State, i: nat)
    requires i < |s.slots|
  {
    var p := s.slots[i].probe;
    p.Some? && p.value < |s.probes| && s.probes[p.value].storage + cfg.probeSize <= cfg.storageSize
  }

  ghost predicate AllInBounds(cfg: Config, ops: seq<Op>) {
    var s := Run(cfg, ops);
    forall i :: 0 <= i < |s.slots| && s.slots[i].tcb != NULL ==> InBounds(cfg, s, i)
  }

  const SUCCEEDS := CreateEnv(true, true, true, true, true, true)
  const INIT_FAILS := CreateEnv(true, false, true, true, true, true)

  /** Tracing is enabled; then `k` times a task takes storage but gets no probe, and tracing is enabled again. */
  ghost function Waste(name: Bytes, k: nat): seq<Op> {
    if k == 0 then [Enable(NULL, 1, SUCCEEDS)]
    else Waste(name, k - 1) + [Create(k + 1, name, 0, INIT_FAILS)] + [Enable(NULL, NULL, SUCCEEDS)]
  }

  /** Tracing is on, `k` regions are gone, nothing is traced yet, and a task of this name would be. */
  ghost predicate Wasted(cfg: Config, s: State, l: Kernel, name: Bytes, k: nat) {
    && s.enabled && s.nextStorage == k * cfg.probeSize && s.probes == [] && s.slots == Init(cfg).slots
    && HashName(name) !in s.excluded && !(cfg.includeIoTask && s.ioTask == NULL)
    && !l.started && l.reserved == {1} && forall h :: h in l.names ==> 2 <= h <= k + 1
  }

  /** A name that is traced although the IO task's is excluded. */
  ghost predicate Traceable(cfg: Config, name: Bytes) {
    HashedLength(name) != 0 && HashName(name) != 0 && HashName(name) != HashName(cfg.ioTaskName)
  }

  lemma WasteStarts(cfg: Config, name: Bytes)
    requires Traceable(cfg, name)
    ensures Legal(cfg, Waste(name, 0)) && Wasted(cfg, Run(cfg, Waste(name, 0)), KernelRun(Waste(name, 0)), name, 0)
  {
    var op := Enable(NULL, 1, SUCCEEDS);
    var s := Init(cfg);
    assert Waste(name, 0)[..0] == [];
    EnableUnfolds(cfg, s, NULL, 1, SUCCEEDS);
    hide EnableTracing, HashName, FindIdFrom;
    assert Run(cfg, [op]) == Step(cfg, s, op);
  }

  /** The registration that fails to make a probe has taken its storage. */
  lemma WastefulCreate(cfg: Config, s: State, l: Kernel, name: Bytes, k: nat, task: Handle)
    requires cfg.Valid() && cfg.staticAllocation && Traceable(cfg, name) && Wasted(cfg, s, l, name, k) && task != NULL
    requires (k + 1) * cfg.probeSize <= cfg.storageSize
    ensures var t := Register(cfg, s, task, name, 0, INIT_FAILS);
            && !t.enabled && t.nextStorage == (k + 1) * cfg.probeSize && t.ioTask == s.ioTask
            && t.probes == s.probes && t.slots == s.slots && t.excluded == s.excluded
  {
    OneMore(k, cfg.probeSize);
    OneRequest(cfg, k * cfg.probeSize);
    IdentifiedEffect(s, task, name);
    RegisterUnfolds(cfg, s, task, name, 0, INIT_FAILS);
    hide HashName, Register, Identified, AllocStorage, AddTcbProbe, SetFilter, Record, Numbered, HashedLength;
  }

  lemma MoreWaste(cfg: Config, ops: seq<Op>, name: Bytes, k: nat)
    requires cfg.Valid() && cfg.staticAllocation && Traceable(cfg, name) && (k + 1) * cfg.probeSize <= cfg.storageSize
    requires Legal(cfg, ops) && Wasted(cfg, Run(cfg, ops), KernelRun(ops), name, k)
    ensures var more := ops + [Create(k + 2, name, 0, INIT_FAILS)] + [Enable(NULL, NULL, SUCCEEDS)];
            Legal(cfg, more) && Wasted(cfg, Run(cfg, more), KernelRun(more), name, k + 1)
  {
    hide Run, KernelRun, Legal, Register, EnableTracing, HashName, HashedLength;
    var create, enable := Create(k + 2, name, 0, INIT_FAILS), Enable(NULL, NULL, SUCCEEDS);
    var s, l := Run(cfg, ops), KernelRun(ops);
    WastefulCreate(cfg, s, l, name, k, k + 2);
    EnableUnfolds(cfg, Step(cfg, s, create), NULL, NULL, SUCCEEDS);
    RunExtends(cfg, ops, create);
    RunExtends(cfg, ops + [create], enable);
  }

  lemma {:induction false} WasteReaches(cfg: Config, name: Bytes, k: nat)
    requires cfg.Valid() && cfg.staticAllocation && Traceable(cfg, name) && k * cfg.probeSize <= cfg.storageSize
    ensures Legal(cfg, Waste(name, k)) && Wasted(cfg, Run(cfg, Waste(name, k)), KernelRun(Waste(name, k)), name, k)
  {
    hide Run, KernelRun, Legal, Wasted, Traceable;
    if k == 0 {
      WasteStarts(cfg, name);
    } else {
      OneMore(k - 1, cfg.probeSize);
      WasteReaches(cfg, name, k - 1);
      MoreWaste(cfg, Waste(name, k - 1), name, k - 1);
    }
  }

  /** The next registration, if it succeeds, gets the next region whether or not that fits. */
  lemma GreedyCreate(cfg: Config, s: State, l: Kernel, name: Bytes, k: nat, task: Handle)
    requires cfg.staticAllocation && Traceable(cfg, name) && Wasted(cfg, s, l, name, k) && task != NULL
    requires cfg.maxProbes > 0 && AllocStorage(cfg, s.nextStorage).0 == Some(k * cfg.probeSize)
    ensures var t := Register(cfg, s, task, name, 0, SUCCEEDS);
            && |t.slots| == cfg.maxProbes && t.slots[0].tcb == task && t.slots[0].probe == Some(0)
            && |t.probes| == 1 && t.probes[0].storage == k * cfg.probeSize
  {
    var id, s1 := HashName(name), Identified(s, task, name);
    IdentifiedEffect(s, task, name);
    RegisterUnfolds(cfg, s, task, name, 0, SUCCEEDS);
    hide HashName, Register, Identified, AllocStorage, Numbered, HashedLength, Record;
    var (s2, probe) := AllocProbe(cfg, s1, id, SUCCEEDS);
    assert s2.slots == s.slots && probe == Some(0) && |s2.probes| == 1 && s2.probes[0].storage == k * cfg.probeSize;
    hide AllocProbe;
    var s3 := AddTcbProbe(cfg, s2, task, 0, SUCCEEDS);
    FirstSlot(cfg, s2, task);
    hide AddTcbProbe;
    SetFilterEffect(s3, task, 0xFFFF);
    hide SetFilter;
    RecordKeepsStorage(SetFilter(s3, task, 0xFFFF), Some(0), Event(TASK_CREATE, Some(0)));
  }

  lemma FirstSlot(cfg: Config, s: State, task: Handle)
    requires s.slots == Init(cfg).slots && cfg.maxProbes > 0
    ensures var t := AddTcbProbe(cfg, s, task, 0, SUCCEEDS);
            && t.probes == s.probes && |t.slots| == cfg.maxProbes
            && t.slots[0].tcb == task && t.slots[0].probe == Some(0)
  {
    assert s.slots[0].tcb == NULL;
    assert FindSlot(s.slots, NULL) == Some(0);
    hide FindSlot;
  }

  lemma RecordKeepsStorage(s: State, probe: Option<nat>, e: Event)
    ensures var t := Record(s, probe, e);
            && t.slots == s.slots && |t.probes| == |s.probes|
            && forall p :: 0 <= p < |s.probes| ==> t.probes[p].storage == s.probes[p].storage
  {
  }

  lemma TraceableName(cfg: Config) returns (name: Bytes)
    ensures Traceable(cfg, name)
  {
    KnownIds();
    name := if HashName(cfg.ioTaskName) == HashName([0x41]) then [0x42] else [0x41];
    hide HashName;
  }

  /** A run in which a traced task's region lies outside the array. */
  lemma OverflowingRun(cfg: Config) returns (ops: seq<Op>)
    requires cfg.Valid() && cfg.staticAllocation && cfg.maxProbes > 0 && !NoWrap(cfg)
    ensures Legal(cfg, ops) && !AllInBounds(cfg, ops)
  {
    var m := cfg.storageSize / cfg.probeSize;
    FitsIff(m, cfg.probeSize, cfg.storageSize);
    OneMore(m, cfg.probeSize);
    OneRequest(cfg, m * cfg.probeSize);
    var name := TraceableName(cfg);
    ops := Waste(name, m) + [Create(m + 2, name, 0, SUCCEEDS)];
    OneTooMany(cfg, name, m);
  }

  lemma OneTooMany(cfg: Config, name: Bytes, m: nat)
    requires cfg.Valid() && cfg.staticAllocation && cfg.maxProbes > 0 && Traceable(cfg, name)
    requires m * cfg.probeSize <= cfg.storageSize < m * cfg.probeSize + cfg.probeSize
    requires AllocStorage(cfg, m * cfg.probeSize).0 == Some(m * cfg.probeSize)
    ensures var ops := Waste(name, m) + [Create(m + 2, name, 0, SUCCEEDS)];
            Legal(cfg, ops) && !AllInBounds(cfg, ops)
  {
    hide HashName, Traceable, Waste, Register, Run, KernelRun, Legal, AllocStorage;
    var before, create := Waste(name, m), Create(m + 2, name, 0, SUCCEEDS);
    WasteReaches(cfg, name, m);
    GreedyCreate(cfg, Run(cfg, before), KernelRun(before), name, m, m + 2);
    RunExtends(cfg, before, create);
    assert !InBounds(cfg, Run(cfg, before + [create]), 0);
  }

  /** Traced tasks have their storage inside the array, in every run, if and only if the index cannot wrap. */
  lemma StorageSafeIffNoWrap(cfg: Config)
    requires cfg.Valid() && cfg.staticAllocation && cfg.maxProbes > 0
    ensures (forall ops: seq<Op> :: Legal(cfg, ops) ==> AllInBounds(cfg, ops)) <==> NoWrap(cfg)
  {
    if !NoWrap(cfg) {
      var ops := OverflowingRun(cfg);
    }
    forall ops: seq<Op> | NoWrap(cfg) && Legal(cfg, ops)
      ensures AllInBounds(cfg, ops)
    {
      hide Run, Legal, NoWrap;
      var s := Run(cfg, ops);
      forall i | 0 <= i < |s.slots| && s.slots[i].tcb != NULL
        ensures InBounds(cfg, s, i)
      {
        StorageIsDisjoint(cfg, ops, i);
      }
    }
  }
}
