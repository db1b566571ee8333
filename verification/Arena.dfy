/** The static storage of the probes: a bump allocator over one array, with the word's wrap-around. */
module Arena {
  import opened Arithmetic
  import opened Options
  import opened ProbeIdHash
  import opened Trace
  import opened Registry
  import opened Latch
  import opened Runs
  import opened Decisions

  /** The next index after `k` requests. */
  ghost function NextIndex(cfg: Config, k: nat): nat {
    if k == 0 then 0 else AllocStorage(cfg, NextIndex(cfg, k - 1)).1
  }

  /** What request number `k`, counted from 1, is given. */
  ghost function Grant(cfg: Config, k: nat): Option<nat>
    requires k > 0
  {
    AllocStorage(cfg, NextIndex(cfg, k - 1)).0
  }

  /** Request `k` is granted exactly when `k` regions fit, and then it gets the k-th region. */
  ghost predicate GrantsFit(cfg: Config) {
    forall k: nat :: k > 0 ==>
      Grant(cfg, k) == if k * cfg.probeSize <= cfg.storageSize then Some((k - 1) * cfg.probeSize) else None
  }

  /** The first request past the end of the array does not wrap the index. */
  ghost predicate NoWrap(cfg: Config) {
    cfg.probeSize == 0 || (cfg.storageSize / cfg.probeSize + 1) * cfg.probeSize <= cfg.sizeMax
  }

  /** How many regions fit. */
  lemma FitsIff(k: nat, size: nat, storage: nat)
    requires size > 0
    ensures k * size <= storage <==> k <= storage / size
    ensures (storage / size) * size <= storage < (storage / size + 1) * size
  {
    var m := storage / size;
    assert storage == size * m + storage % size;
    assert size * m == m * size && (m + 1) * size == m * size + size;
    if k <= m {
      MulMonotone(size, k, m);
    } else {
      MulMonotone(size, m + 1, k);
    }
  }

  lemma ModWord(a: nat, max: nat)
    ensures a <= max ==> a % (max + 1) == a
    ensures max < a <= 2 * max + 1 ==> a % (max + 1) == a - max - 1
  {
  }

  /** One request, when the index does not wrap and when it does. */
  lemma OneRequest(cfg: Config, next: nat)
    requires cfg.Valid() && next <= cfg.storageSize
    ensures next + cfg.probeSize <= cfg.sizeMax ==>
              AllocStorage(cfg, next) ==
              if next + cfg.probeSize <= cfg.storageSize then (Some(next), next + cfg.probeSize) else (None, next)
    ensures next + cfg.probeSize > cfg.sizeMax ==> AllocStorage(cfg, next).0 == Some(next)
  {
    ModWord(next + cfg.probeSize, cfg.sizeMax);
  }

  lemma {:induction false} IndexBeforeEnd(cfg: Config, k: nat)
    requires cfg.Valid() && k * cfg.probeSize <= cfg.storageSize
    ensures NextIndex(cfg, k) == k * cfg.probeSize
  {
    if k > 0 {
      hide AllocStorage;
      assert k * cfg.probeSize == (k - 1) * cfg.probeSize + cfg.probeSize;
      IndexBeforeEnd(cfg, k - 1);
      OneRequest(cfg, (k - 1) * cfg.probeSize);
    }
  }

  lemma {:induction false} IndexPastEnd(cfg: Config, k: nat)
    requires cfg.Valid() && NoWrap(cfg) && cfg.probeSize > 0 && k >= cfg.storageSize / cfg.probeSize
    ensures NextIndex(cfg, k) == (cfg.storageSize / cfg.probeSize) * cfg.probeSize
  {
    var m := cfg.storageSize / cfg.probeSize;
    FitsIff(m, cfg.probeSize, cfg.storageSize);
    hide AllocStorage;
    if k == m {
      hide NextIndex;
      IndexBeforeEnd(cfg, k);
    } else {
      IndexPastEnd(cfg, k - 1);
      OneMore(m, cfg.probeSize);
      OneRequest(cfg, m * cfg.probeSize);
    }
  }

  /** Without wrapping, the allocator grants exactly the regions that fit. */
  lemma NoWrapGrantsFit(cfg: Config)
    requires cfg.Valid() && NoWrap(cfg)
    ensures GrantsFit(cfg)
  {
    hide AllocStorage, NextIndex;
    var size := cfg.probeSize;
    forall k: nat | k > 0
      ensures Grant(cfg, k) == if k * size <= cfg.storageSize then Some((k - 1) * size) else None
    {
      assert k * size == (k - 1) * size + size;
      if k * size <= cfg.storageSize {
        IndexBeforeEnd(cfg, k - 1);
        OneRequest(cfg, (k - 1) * size);
      } else {
        PastEndRefused(cfg, k);
      }
    }
  }

  lemma PastEndRefused(cfg: Config, k: nat)
    requires cfg.Valid() && NoWrap(cfg) && k > 0 && k * cfg.probeSize > cfg.storageSize
    ensures Grant(cfg, k) == None
  {
    hide AllocStorage, NextIndex;
    var m := cfg.storageSize / cfg.probeSize;
    FitsIff(k, cfg.probeSize, cfg.storageSize);
    IndexPastEnd(cfg, k - 1);
    assert (m + 1) * cfg.probeSize == m * cfg.probeSize + cfg.probeSize;
    OneRequest(cfg, m * cfg.probeSize);
  }

  /** With wrapping, the first request past the end is granted although its region does not fit. */
  lemma WrapGrantsTooMuch(cfg: Config)
    requires cfg.Valid() && !NoWrap(cfg)
    ensures var k := cfg.storageSize / cfg.probeSize + 1;
            Grant(cfg, k).Some? && k * cfg.probeSize > cfg.storageSize
  {
    hide AllocStorage, NextIndex;
    var m := cfg.storageSize / cfg.probeSize;
    FitsIff(m, cfg.probeSize, cfg.storageSize);
    IndexBeforeEnd(cfg, m);
    assert (m + 1) * cfg.probeSize == m * cfg.probeSize + cfg.probeSize;
    OneRequest(cfg, m * cfg.probeSize);
  }

  /** The allocator is correct for every number of requests exactly when the index cannot wrap. */
  lemma AllocatorCorrectIffNoWrap(cfg: Config)
    requires cfg.Valid()
    ensures GrantsFit(cfg) <==> NoWrap(cfg)
  {
    if NoWrap(cfg) {
      NoWrapGrantsFit(cfg);
    } else {
      WrapGrantsTooMuch(cfg);
      assert Grant(cfg, cfg.storageSize / cfg.probeSize + 1).Some?;
    }
  }

  // ----- Over whole runs -----

  /** `q` regions have been granted, one for each probe at least. */
  ghost predicate Granted(cfg: Config, s: State, q: nat) {
    s.nextStorage == q * cfg.probeSize && |s.probes| <= q
  }

  /** The regions of the probes lie one after the other inside the array, and the index is past them all. */
  ghost predicate ArenaInv(cfg: Config, s: State) {
    && s.nextStorage <= cfg.storageSize
    && (exists q: nat :: Granted(cfg, s, q))
    && (forall p :: 0 <= p < |s.probes| ==> s.probes[p].storage + cfg.probeSize <= s.nextStorage)
    && (forall p, q :: 0 <= p < q < |s.probes| ==> s.probes[p].storage + cfg.probeSize <= s.probes[q].storage)
  }

  ghost predicate SameStorage(s: State, t: State) {
    && t.nextStorage == s.nextStorage && |t.probes| == |s.probes|
    && forall p :: 0 <= p < |s.probes| ==> t.probes[p].storage == s.probes[p].storage
  }

  lemma SameStorageKeepsArena(cfg: Config, s: State, t: State)
    requires ArenaInv(cfg, s) && SameStorage(s, t)
    ensures ArenaInv(cfg, t)
  {
    var q: nat :| Granted(cfg, s, q);
    assert Granted(cfg, t, q);
  }

  /** After `q` regions that fit, one more request does not wrap. */
  lemma NextFitsWord(cfg: Config, q: nat)
    requires cfg.Valid() && NoWrap(cfg) && q * cfg.probeSize <= cfg.storageSize
    ensures q * cfg.probeSize + cfg.probeSize <= cfg.sizeMax
    ensures (q + 1) * cfg.probeSize == q * cfg.probeSize + cfg.probeSize
  {
    var size := cfg.probeSize;
    assert (q + 1) * size == q * size + size;
    if size > 0 {
      FitsIff(q, size, cfg.storageSize);
      MulMonotone(size, q + 1, cfg.storageSize / size + 1);
    }
  }

  /** In a state that keeps the invariant, a request is granted exactly when its region fits. */
  lemma RequestGranted(cfg: Config, s: State)
    requires cfg.Valid() && NoWrap(cfg) && ArenaInv(cfg, s)
    ensures AllocStorage(cfg, s.nextStorage) ==
            if s.nextStorage + cfg.probeSize <= cfg.storageSize then
              (Some(s.nextStorage), s.nextStorage + cfg.probeSize)
            else (None, s.nextStorage)
  {
    var q: nat :| Granted(cfg, s, q);
    NextFitsWord(cfg, q);
    OneRequest(cfg, s.nextStorage);
    hide AllocStorage;
  }

  lemma AllocKeepsArena(cfg: Config, s: State, id: bv16, env: CreateEnv)
    requires cfg.Valid() && NoWrap(cfg) && cfg.staticAllocation && ArenaInv(cfg, s)
    ensures ArenaInv(cfg, AllocProbe(cfg, s, id, env).0)
  {
    var q: nat :| Granted(cfg, s, q);
    NextFitsWord(cfg, q);
    RequestGranted(cfg, s);
    hide AllocStorage;
    var t := AllocProbe(cfg, s, id, env).0;
    assert Granted(cfg, t, if t.nextStorage == s.nextStorage then q else q + 1) || cfg.probeSize == 0;
    assert Granted(cfg, t, q + 1) || t.nextStorage != s.nextStorage + cfg.probeSize;
  }

  // ----- Steps that allocate nothing -----

  lemma LogKeepsStorage(s: State, e: Event, ok: bool)
    ensures SameStorage(s, LogEvent(s, e, ok))
  {
    hide FindSlot;
  }

  lemma SwitchKeepsStorage(cfg: Config, s: State, op: Op)
    requires op.SwitchedIn? || op.SwitchedOut? || op.Hook?
    ensures SameStorage(s, Step(cfg, s, op))
  {
    hide Gate, FindSlot, LogEvent;
    match op
    case SwitchedIn(task, priority, mergeOk, recordOk) =>
      var s1 := SwitchedTcb(s, task);
      var s2 := if s.current != task then MergeSnapshot(s1, mergeOk) else s1;
      assert SameStorage(s, s2);
      LogKeepsStorage(s2, Event(TASK_SWITCHED_IN, Some(priority)), recordOk);
      hide MergeSnapshot;
    case SwitchedOut(task, recordOk, snapshotOk) =>
      LogKeepsStorage(s, Event(TASK_SWITCHED_OUT, None), recordOk);
    case Hook(task, e, ok) =>
      LogKeepsStorage(s, e, ok);
  }

  lemma OthersKeepStorage(cfg: Config, s: State, op: Op)
    requires !op.Create?
    ensures SameStorage(s, Step(cfg, s, op))
  {
    hide Gate, FindSlot, FindId, HashName, HasRoom, Reaches, ProbeId, Register, EnableTracing, SwitchIn, SwitchOut,
         GatedLog;
    if op.SwitchedIn? || op.SwitchedOut? || op.Hook? {
      SwitchKeepsStorage(cfg, s, op);
    } else if op.Enable? {
      EnableUnfolds(cfg, s, op.caller, op.ioTask, op.ioEnv);
    }
  }

  /** A registration asks for storage once, unless the id is on the list. */
  lemma RegisterStorage(cfg: Config, s: State, task: Handle, name: Bytes, priority: nat, env: CreateEnv)
    requires s.enabled && task != NULL && SlotsInOrder(s.slots)
    ensures var t := Register(cfg, s, task, name, priority, env);
            SameStorage(if HashName(name) in s.excluded then s
                        else AllocProbe(cfg, Identified(s, task, name), HashName(name), env).0, t)
  {
    var id := HashName(name);
    var s1 := Identified(s, task, name);
    RegisterUnfolds(cfg, s, task, name, priority, env);
    IdentifiedEffect(s, task, name);
    hide HashName, Identified, Register;
    if id !in s1.excluded {
      var (s2, probe) := AllocProbe(cfg, s1, id, env);
      AllocProbeEffect(cfg, s1, id, env);
      hide AllocProbe;
      if probe.Some? {
        var s3 := AddTcbProbe(cfg, s2, task, probe.value, env);
        AddTcbProbeEffect(cfg, s2, task, probe.value, env);
        hide AddTcbProbe;
        SetFilterEffect(s3, task, 0xFFFF);
        hide SetFilter;
      }
    }
  }

  lemma CreateKeepsArena(cfg: Config, s: State, k: Kernel, op: Op)
    requires cfg.Valid() && NoWrap(cfg) && cfg.staticAllocation && op.Create?
    requires ArenaInv(cfg, s) && RegistryInv(cfg, s, k) && Allowed(cfg, k, op)
    ensures ArenaInv(cfg, Step(cfg, s, op))
  {
    hide HashName, Register, AllocProbe, Identified, ArenaInv;
    if s.enabled {
      var id, s1 := HashName(op.name), Identified(s, op.task, op.name);
      RegisterStorage(cfg, s, op.task, op.name, op.priority, op.env);
      IdentifiedEffect(s, op.task, op.name);
      var t := Step(cfg, s, op);
      if id in s.excluded {
        SameStorageKeepsArena(cfg, s, t);
      } else {
        SameStorageKeepsArena(cfg, s, s1);
        AllocKeepsArena(cfg, s1, id, op.env);
        SameStorageKeepsArena(cfg, AllocProbe(cfg, s1, id, op.env).0, t);
      }
    } else {
      DisabledCreate(cfg, s, op);
    }
  }

  lemma {:induction false} ReachableArena(cfg: Config, ops: seq<Op>)
    requires cfg.Valid() && NoWrap(cfg) && cfg.staticAllocation && Legal(cfg, ops)
    ensures ArenaInv(cfg, Run(cfg, ops))
  {
    if ops == [] {
      assert Granted(cfg, Init(cfg), 0);
    } else {
      hide ArenaInv, RegistryInv, Step, Allowed;
      var front, op := ops[..|ops| - 1], ops[|ops| - 1];
      var s := Run(cfg, front);
      ReachableArena(cfg, front);
      ReachableRegistry(cfg, front);
      if op.Create? {
        CreateKeepsArena(cfg, s, KernelRun(front), op);
      } else {
        OthersKeepStorage(cfg, s, op);
        SameStorageKeepsArena(cfg, s, Step(cfg, s, op));
      }
    }
  }

  /** Probes are numbered in the order of the slots, so that slot `i` has probe `i` or a later one. */
  lemma {:induction false} ProbeNotBefore(cfg: Config, s: State, k: Kernel, i: nat)
    requires RegistryInv(cfg, s, k) && i < |s.slots| && s.slots[i].tcb != NULL
    ensures s.slots[i].probe.Some? && i <= s.slots[i].probe.value < |s.probes|
  {
    hide Filter, ProbeId, HashName, FindSlot;
    assert SlotInv(s, k, s.slots[i]);
    if i > 0 {
      assert s.slots[i - 1].tcb != NULL;
      ProbeNotBefore(cfg, s, k, i - 1);
    }
  }

  /** The probe of slot `i` has a region inside the array, before those of the later slots. */
  ghost predicate OwnRegion(cfg: Config, s: State, i: nat)
    requires i < |s.slots|
  {
    var p := s.slots[i].probe;
    && p.Some? && p.value < |s.probes|
    && s.probes[p.value].storage + cfg.probeSize <= s.nextStorage <= cfg.storageSize
    && forall j :: i < j < |s.slots| && s.slots[j].tcb != NULL ==>
         var q := s.slots[j].probe;
         q.Some? && q.value < |s.probes| && s.probes[p.value].storage + cfg.probeSize <= s.probes[q.value].storage
  }

  lemma SlotHasRegion(cfg: Config, s: State, k: Kernel, i: nat)
    requires RegistryInv(cfg, s, k) && ArenaInv(cfg, s) && i < |s.slots| && s.slots[i].tcb != NULL
    ensures OwnRegion(cfg, s, i)
  {
    hide Filter, ProbeId, HashName, FindSlot, Granted;
    ProbeNotBefore(cfg, s, k, i);
    forall j | i < j < |s.slots| && s.slots[j].tcb != NULL
      ensures s.slots[j].probe.Some? && s.slots[i].probe.value < s.slots[j].probe.value < |s.probes|
    {
      ProbeNotBefore(cfg, s, k, j);
    }
  }

  lemma RegionsFit(cfg: Config, s: State, n: nat)
    requires ArenaInv(cfg, s) && n <= |s.probes|
    ensures n * cfg.probeSize <= cfg.storageSize
  {
    var q: nat :| Granted(cfg, s, q);
    MulMonotone(cfg.probeSize, n, q);
  }

  /**
   * In every reachable state the regions of traced tasks lie inside the array and do not overlap, and there
   * are no more traced tasks than slots, nor than regions that fit.
   */
  lemma StorageIsDisjoint(cfg: Config, ops: seq<Op>, i: nat)
    requires cfg.Valid() && NoWrap(cfg) && cfg.staticAllocation && Legal(cfg, ops)
    requires i < |Run(cfg, ops).slots| && Run(cfg, ops).slots[i].tcb != NULL
    ensures OwnRegion(cfg, Run(cfg, ops), i)
    ensures (i + 1) * cfg.probeSize <= cfg.storageSize && i < cfg.maxProbes
  {
    hide *;
    var s, k := Run(cfg, ops), KernelRun(ops);
    ReachableArena(cfg, ops);
    ReachableRegistry(cfg, ops);
    SlotHasRegion(cfg, s, k, i);
    ProbeNotBefore(cfg, s, k, i);
    RegionsFit(cfg, s, i + 1);
    SlotCount(cfg, s, k);
  }

  // ----- Where capacity runs out -----

  /** A creation that asks for storage: tracing is on and the id is not on the list. */
  ghost predicate Asks(s: State, op: Op) {
    op.Create? && s.enabled && HashName(op.name) !in s.excluded
  }

  ghost function Requests(cfg: Config, ops: seq<Op>): nat {
    if ops == [] then 0
    else Requests(cfg, ops[..|ops| - 1]) + if Asks(Run(cfg, ops[..|ops| - 1]), ops[|ops| - 1]) then 1 else 0
  }

  lemma RequestCounts(cfg: Config, s: State, k: Kernel, op: Op)
    requires cfg.Valid() && NoWrap(cfg) && cfg.staticAllocation && ArenaInv(cfg, s) && RegistryInv(cfg, s, k)
    requires Allowed(cfg, k, op) && Step(cfg, s, op).error.None?
    ensures Step(cfg, s, op).nextStorage == s.nextStorage + if Asks(s, op) then cfg.probeSize else 0
  {
    if !op.Create? {
      OthersKeepStorage(cfg, s, op);
      hide *;
    } else if s.enabled {
      var id, s1 := HashName(op.name), Identified(s, op.task, op.name);
      RegisterStorage(cfg, s, op.task, op.name, op.priority, op.env);
      RegisterLatches(cfg, s, op.task, op.name, op.priority, op.env);
      IdentifiedEffect(s, op.task, op.name);
      RegisterUnfolds(cfg, s, op.task, op.name, op.priority, op.env);
      hide HashName, Register, Identified, RegistryInv, SetFilter, AddTcbProbe, AllocStorage, Record;
      if id !in s.excluded {
        SameStorageKeepsArena(cfg, s, s1);
        RequestGranted(cfg, s1);
        AllocProbeEffect(cfg, s1, id, op.env);
      }
    }
  }

  /** While no error is recorded, the next index is the sum of the sizes granted, one for every request. */
  lemma {:induction false} IndexCountsRequests(cfg: Config, ops: seq<Op>)
    requires cfg.Valid() && NoWrap(cfg) && cfg.staticAllocation && Legal(cfg, ops) && Run(cfg, ops).error.None?
    ensures Run(cfg, ops).nextStorage == Requests(cfg, ops) * cfg.probeSize
  {
    if ops == [] {
    } else {
      var front, op := ops[..|ops| - 1], ops[|ops| - 1];
      var s, k := Run(cfg, front), KernelRun(front);
      assert Requests(cfg, ops) == Requests(cfg, front) + if Asks(s, op) then 1 else 0;
      hide *;
      LastStep(cfg, ops);
      ReachableRegistry(cfg, front);
      ReachableArena(cfg, front);
      ErrorFreeBefore(cfg, s, k, op);
      IndexCountsRequests(cfg, front);
      RequestCounts(cfg, s, k, op);
      OneMore(Requests(cfg, front), cfg.probeSize);
    }
  }

  ghost predicate AllElseSucceeds(env: CreateEnv) {
    env.initialize && env.snapshot && env.messageBuffer && env.taskBuffer && env.record
  }

  /** A creation from `s` to `t` whose region ends at `end`, when `free` is the first free slot. */
  ghost predicate WithinCapacity(cfg: Config, s: State, t: State, op: Op, end: int, free: Option<nat>)
    requires op.Create?
  {
    if end > cfg.storageSize then
      t.error == Some(NoStorage) && !t.enabled && t.slots == s.slots && t.nextStorage == s.nextStorage
    else
      && t.nextStorage == end
      && if HashName(op.name) == 0 then t.error.None? && t.enabled && t.slots == s.slots
         else if free.None? then t.error == Some(NoProbeSlots) && !t.enabled && t.slots == s.slots
         else
           && t.error.None? && t.enabled
           && free.value < |s.slots| == |t.slots| && t.slots[free.value].tcb == op.task
           && t.slots == s.slots[free.value := t.slots[free.value]]
  }

  /** What a request for storage comes to when nothing but capacity can fail. */
  lemma OneCreation(cfg: Config, s: State, k: Kernel, op: Op)
    requires cfg.Valid() && NoWrap(cfg) && cfg.staticAllocation && ArenaInv(cfg, s) && RegistryInv(cfg, s, k)
    requires Allowed(cfg, k, op) && Asks(s, op) && s.error.None? && HashedLength(op.name) != 0
             && AllElseSucceeds(op.env)
    ensures WithinCapacity(cfg, s, Step(cfg, s, op), op, s.nextStorage + cfg.probeSize, FindSlot(s.slots, NULL))
  {
    var id, s1 := HashName(op.name), Identified(s, op.task, op.name);
    RegisterStorage(cfg, s, op.task, op.name, op.priority, op.env);
    IdentifiedEffect(s, op.task, op.name);
    RegisterUnfolds(cfg, s, op.task, op.name, op.priority, op.env);
    SameStorageKeepsArena(cfg, s, s1);
    RequestGranted(cfg, s1);
    AllocProbeEffect(cfg, s1, id, op.env);
    var (s2, probe) := AllocProbe(cfg, s1, id, op.env);
    hide HashName, Register, Identified, RegistryInv, AllocStorage, ArenaInv, FindSlot, Numbered, Allowed;
    if probe.Some? {
      var s3 := AddTcbProbe(cfg, s2, op.task, probe.value, op.env);
      hide AllocProbe;
      AddSucceeds(cfg, s2, op.task, probe.value, op.env);
      hide AddTcbProbe;
      SetFilterEffect(s3, op.task, 0xFFFF);
      hide SetFilter;
    }
  }

  lemma AddSucceeds(cfg: Config, s: State, task: Handle, probe: nat, env: CreateEnv)
    requires AllElseSucceeds(env) && s.error.None?
    ensures var t, free := AddTcbProbe(cfg, s, task, probe, env), FindSlot(s.slots, NULL);
            if free.None? then t == Raise(s, NoProbeSlots)
            else
              && t == s.(slots := t.slots) && t.slots == s.slots[free.value := t.slots[free.value]]
              && t.slots[free.value].tcb == task
  {
    hide FindSlot;
  }

  /**
   * In an error-free run in which nothing but capacity can fail, a creation that is to be traced succeeds
   * exactly when its region fits and a slot is free, and then takes the slot after the tasks traced so far;
   * the first one past either limit records that limit's error and disables tracing. A task whose id is 0
   * and that the list does not hold any more uses up a region all the same.
   */
  lemma CapacityDecides(cfg: Config, ops: seq<Op>, op: Op)
    requires cfg.Valid() && NoWrap(cfg) && cfg.staticAllocation && Legal(cfg, ops)
             && Allowed(cfg, KernelRun(ops), op) && op.Create?
    requires var s := Run(cfg, ops);
             Asks(s, op) && s.error.None? && HashedLength(op.name) != 0 && AllElseSucceeds(op.env)
    ensures var s, n := Run(cfg, ops), |TasksToTrace(cfg, ops)|;
            WithinCapacity(cfg, s, Step(cfg, s, op), op, (Requests(cfg, ops) + 1) * cfg.probeSize,
                           if n == cfg.maxProbes then None else Some(n))
  {
    hide *;
    var s, k, tasks := Run(cfg, ops), KernelRun(ops), TasksToTrace(cfg, ops);
    ReachableRegistry(cfg, ops);
    ReachableArena(cfg, ops);
    IndexCountsRequests(cfg, ops);
    TableRefinesSet(cfg, ops);
    OneMore(Requests(cfg, ops), cfg.probeSize);
    SlotCount(cfg, s, k);
    FreeAfterTasks(s.slots, tasks);
    OneCreation(cfg, s, k, op);
  }

  lemma SlotCount(cfg: Config, s: State, k: Kernel)
    requires RegistryInv(cfg, s, k)
    ensures |s.slots| == cfg.maxProbes
  {
    hide SlotInv, SlotsInOrder, Filter;
  }
}
