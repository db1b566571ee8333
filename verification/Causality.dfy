/** Merges and causal completeness over whole runs. */
module Causality {
  import opened Options
  import opened ProbeIdHash
  import opened Trace
  import opened Registry
  import opened Latch
  import opened Runs
  import opened Attribution

  /** Tracing has run without interruption since the scheduler started, and no error is recorded. */
  ghost predicate Good(s: State, k: Kernel) {
    s.error.None? && (s.enabled || !k.started)
  }

  ghost function ProbeOf(s: State, task: Handle): Option<nat> {
    if Traced(s, task) then SlotOf(s, task).probe else None
  }

  /** Probe `p` belongs to a task that has been switched in. */
  ghost predicate Ran(s: State, c: seq<Handle>, p: nat) {
    exists h :: h in c && ProbeOf(s, h) == Some(p)
  }

  /** The stamp names an event that has been logged. */
  ghost predicate Logged(s: State, e: Stamp) {
    e.probe < |s.probes| && e.index < |s.probes[e.probe].log|
  }

  /** A past that holds exactly the events of the tasks that have run. */
  ghost predicate Complete(s: State, c: seq<Handle>, past: set<Stamp>) {
    forall e: Stamp :: e in past <==> Logged(s, e) && Ran(s, c, e.probe)
  }

  /** A probe knows all its own events, and otherwise only events of tasks that have run. */
  ghost predicate Sound(s: State, c: seq<Handle>, p: nat)
    requires p < |s.probes|
  {
    && (forall e: Stamp :: e in s.probes[p].past ==> Logged(s, e) && (Ran(s, c, e.probe) || e.probe == p))
    && (forall e: Stamp :: Logged(s, e) && e.probe == p ==> e in s.probes[p].past)
  }

  /** Merge number `i` took the snapshot of the chain's task `i` into its task `i + 1`. */
  ghost predicate MergesFollow(s: State, c: seq<Handle>) {
    && |s.merges| == (if c == [] then 0 else |c| - 1)
    && forall i :: 0 <= i < |s.merges| ==>
         && s.merges[i].snapshot.Snapshot?
         && ProbeOf(s, c[i]) == Some(s.merges[i].snapshot.origin)
         && ProbeOf(s, c[i + 1]) == Some(s.merges[i].into)
  }

  /** `live`: the last traced task is running now, so that it may know more than its stored snapshot. */
  ghost predicate CausalInv(s: State, c: seq<Handle>, live: bool) {
    && MergesFollow(s, c)
    && (forall p :: 0 <= p < |s.probes| ==> Sound(s, c, p))
    && (c != [] ==>
          && ProbeOf(s, c[|c| - 1]).Some?
          && (var slot := SlotOf(s, c[|c| - 1]);
              && slot.probe.value < |s.probes|
              && Complete(s, c, s.probes[slot.probe.value].past)
              && (!live ==> slot.snapshot == Snapshot(slot.probe.value, s.probes[slot.probe.value].past))))
  }

  /** Slots name the same probes, and snapshots are as they were. */
  ghost predicate SameTable(s: State, t: State) {
    |t.slots| == |s.slots|
    && forall i :: 0 <= i < |s.slots| ==>
         && t.slots[i].tcb == s.slots[i].tcb && t.slots[i].probe == s.slots[i].probe
         && t.slots[i].snapshot == s.slots[i].snapshot
  }

  /** The library's view is unchanged, but for control messages. */
  ghost predicate SameEvents(s: State, t: State) {
    && t.merges == s.merges && |t.probes| == |s.probes|
    && forall p :: 0 <= p < |s.probes| ==> t.probes[p].log == s.probes[p].log && t.probes[p].past == s.probes[p].past
  }

  lemma SameTableProbeOf(s: State, t: State, h: Handle)
    requires SameTable(s, t)
    ensures ProbeOf(t, h) == ProbeOf(s, h) && Traced(t, h) == Traced(s, h)
    ensures Traced(s, h) ==> SlotOf(t, h).snapshot == SlotOf(s, h).snapshot
  {
    SameFind(s.slots, t.slots, h);
    hide FindSlot;
  }

  lemma QuietKeepsCausal(s: State, t: State, c: seq<Handle>, live: bool)
    requires CausalInv(s, c, live) && SameTable(s, t) && SameEvents(s, t)
    ensures CausalInv(t, c, live)
  {
    hide FindSlot, Traced, SlotOf;
    forall h
      ensures ProbeOf(t, h) == ProbeOf(s, h)
    {
      SameTableProbeOf(s, t, h);
    }
    forall p: nat
      ensures Ran(t, c, p) == Ran(s, c, p)
    {
    }
    forall p | 0 <= p < |t.probes|
      ensures Sound(t, c, p)
    {
      assert Sound(s, c, p);
    }
    if c != [] {
      SameTableProbeOf(s, t, c[|c| - 1]);
    }
  }

  lemma GoodBefore(cfg: Config, s: State, k: Kernel, op: Op)
    requires RegistryInv(cfg, s, k) && Allowed(cfg, k, op) && Good(Step(cfg, s, op), KernelStep(k, op))
    ensures Good(s, k)
    ensures !op.Enable? && !op.Disable? && (op.SwitchedIn? || k.started) ==> s.enabled
  {
    if op.Enable? {
      EnableLatches(cfg, s, op.caller, op.ioTask, op.ioEnv);
    } else {
      StepLatches(cfg, s, k, op);
    }
    hide Step, RegistryInv;
  }

  /** Recording in the running task's probe. */
  lemma RecordKeepsCausal(s: State, c: seq<Handle>, e: Event)
    requires CausalInv(s, c, true) && c != []
    ensures CausalInv(Record(s, ProbeOf(s, c[|c| - 1]), e), c, true)
  {
    var p := ProbeOf(s, c[|c| - 1]).value;
    var t := Record(s, Some(p), e);
    var entry := Stamp(p, |s.probes[p].log|);
    forall h
      ensures ProbeOf(t, h) == ProbeOf(s, h)
    {
    }
    hide FindSlot, Traced, SlotOf, ProbeOf;
    forall q: nat
      ensures Ran(t, c, q) == Ran(s, c, q)
    {
    }
    assert Ran(s, c, p);
    forall q | 0 <= q < |t.probes|
      ensures Sound(t, c, q)
    {
      assert Sound(s, c, q);
    }
  }

  lemma LogKeepsCausal(s: State, c: seq<Handle>, e: Event, ok: bool)
    requires CausalInv(s, c, true) && c != [] && s.current == c[|c| - 1] && s.enabled && s.error.None?
    ensures var t := LogEvent(s, e, ok); t.error.None? ==> CausalInv(t, c, true) && t.current == s.current && t.enabled
  {
    hide FindSlot, CausalInv;
    if ok {
      CurrentTraced(s, c);
      RecordKeepsCausal(s, c, e);
    }
  }

  lemma CurrentTraced(s: State, c: seq<Handle>)
    requires CausalInv(s, c, true) && c != []
    ensures Traced(s, c[|c| - 1]) && ProbeOf(s, c[|c| - 1]).Some? && ProbeOf(s, c[|c| - 1]).value < |s.probes|
  {
    hide FindSlot;
  }

  /** Storing a snapshot makes the last task's slot hold all that its probe knows. */
  lemma ProduceKeepsCausal(s: State, c: seq<Handle>, ok: bool)
    requires CausalInv(s, c, true) && c != [] && s.current == c[|c| - 1] && s.enabled && s.error.None?
    ensures var t := ProduceSnapshot(s, ok); t.error.None? ==> CausalInv(t, c, false)
  {
    var t := ProduceSnapshot(s, ok);
    CurrentTraced(s, c);
    if ok {
      forall h
        ensures ProbeOf(t, h) == ProbeOf(s, h) && Traced(t, h) == Traced(s, h)
        ensures FindSlot(t.slots, h) == FindSlot(s.slots, h)
      {
        SameFind(s.slots, t.slots, h);
        hide FindSlotFrom;
      }
      hide FindSlotFrom, ProbeOf;
      forall q: nat
        ensures Ran(t, c, q) == Ran(s, c, q)
      {
      }
      forall q | 0 <= q < |t.probes|
        ensures Sound(t, c, q)
      {
        assert Sound(s, c, q);
      }
    }
  }

  lemma RanExtend(s: State, c: seq<Handle>, task: Handle, p: nat)
    ensures Ran(s, c + [task], p) <==> Ran(s, c, p) || ProbeOf(s, task) == Some(p)
  {
    hide ProbeOf;
    if Ran(s, c, p) {
      var h :| h in c && ProbeOf(s, h) == Some(p);
      assert h in c + [task];
    }
    if ProbeOf(s, task) == Some(p) {
      assert task in c + [task];
    }
  }

  /** The first traced task to run has nothing to merge. */
  lemma FirstSwitchIn(s: State, task: Handle)
    requires CausalInv(s, [], false) && ProbeOf(s, task).Some? && ProbeOf(s, task).value < |s.probes|
    ensures CausalInv(s.(previous := s.current, current := task), [task], true)
  {
    var t := s.(previous := s.current, current := task);
    forall h
      ensures ProbeOf(t, h) == ProbeOf(s, h)
    {
    }
    assert SlotOf(t, task).probe == ProbeOf(s, task);
    var p := ProbeOf(s, task).value;
    assert Sound(s, [], p);
    hide FindSlot, ProbeOf;
    forall q: nat
      ensures Ran(t, [task], q) <==> ProbeOf(s, task) == Some(q)
      ensures !Ran(s, [], q)
    {
      RanExtend(t, [], task, q);
      assert [] + [task] == [task];
    }
    forall q | 0 <= q < |t.probes|
      ensures Sound(t, [task], q)
    {
      assert Sound(s, [], q);
    }
  }

  /** Merging the snapshot of the last task of the chain makes the next task know everything. */
  lemma MergeKeepsCausal(s: State, c: seq<Handle>, task: Handle)
    requires CausalInv(s, c, false) && c != [] && task != c[|c| - 1]
    requires ProbeOf(s, task).Some? && ProbeOf(s, task).value < |s.probes|
    ensures var s1 := s.(previous := s.current, current := task);
            CausalInv(MergeInto(s1, ProbeOf(s, task), SlotOf(s, c[|c| - 1]).snapshot), c + [task], true)
  {
    var p, last := ProbeOf(s, task).value, c[|c| - 1];
    var snapshot := SlotOf(s, last).snapshot;
    var t := MergeInto(s.(previous := s.current, current := task), Some(p), snapshot);
    forall h
      ensures ProbeOf(t, h) == ProbeOf(s, h)
    {
    }
    assert SlotOf(t, task) == SlotOf(s, task) && (c + [task])[|c|] == task;
    hide FindSlot, ProbeOf, SlotOf;
    forall q: nat
      ensures Ran(t, c + [task], q) <==> Ran(s, c, q) || q == p
    {
      RanExtend(s, c, task, q);
      SameRan(s, t, c + [task], q);
    }
    forall q | 0 <= q < |t.probes|
      ensures Sound(t, c + [task], q)
    {
      assert Sound(s, c, q);
    }
    assert Sound(s, c, p);
    forall e: Stamp
      ensures e in t.probes[p].past <==> Logged(t, e) && Ran(t, c + [task], e.probe)
    {
      assert Logged(t, e) == Logged(s, e);
    }
  }

  lemma SameRan(s: State, t: State, c: seq<Handle>, p: nat)
    requires forall h :: ProbeOf(t, h) == ProbeOf(s, h)
    ensures Ran(t, c, p) == Ran(s, c, p)
  {
    hide ProbeOf;
  }

  ghost predicate Live(s: State, k: Kernel) {
    k.running != NULL && s.current == k.running
  }

  ghost predicate HistoryInv(s: State, k: Kernel, c: seq<Handle>) {
    Good(s, k) ==> CausalInv(s, c, Live(s, k))
  }

  /** A task whose filter passes has a slot, while no error is recorded. */
  lemma GatedIsTraced(cfg: Config, s: State, k: Kernel, task: Handle)
    requires RegistryInv(cfg, s, k) && Gate(s, task) && s.error.None?
    ensures Traced(s, task) && ProbeOf(s, task).Some? && ProbeOf(s, task).value < |s.probes|
  {
    KnownIfGated(s, task);
    GateIsFilter(s, task);
    hide Filter, ProbeId, FindSlotFrom, HashName;
    assert Traced(s, task);
    assert SlotInv(s, k, SlotOf(s, task));
  }

  lemma SwitchInKeepsHistory(cfg: Config, s: State, k: Kernel, c: seq<Handle>, op: Op)
    requires op.SwitchedIn? && Gate(s, op.task) && Allowed(cfg, k, op)
    requires RegistryInv(cfg, s, k) && AttributionInv(s, k, c) && Good(s, k) && s.enabled && CausalInv(s, c, false)
    ensures var t := Step(cfg, s, op); t.error.None? ==> CausalInv(t, Extend(c, op.task), true)
  {
    var task := op.task;
    GatedIsTraced(cfg, s, k, task);
    NotNull(cfg, s, k, task);
    var s1 := SwitchedTcb(s, task);
    var s2 := if s.current != task then MergeSnapshot(s1, op.mergeOk) else s1;
    var d := Extend(c, task);
    HandOver(s, c, task, op.mergeOk);
    hide CausalInv, LogEvent, MergeSnapshot, Gate, FindSlot, RegistryInv;
    if s2.error.None? {
      LogKeepsCausal(s2, d, Event(TASK_SWITCHED_IN, Some(op.priority)), op.recordOk);
    } else {
      LogLatches(s2, Event(TASK_SWITCHED_IN, Some(op.priority)), op.recordOk);
    }
  }

  /** What happens between a switch in and its event: the remembered tasks move on, and the merge. */
  lemma HandOver(s: State, c: seq<Handle>, task: Handle, mergeOk: bool)
    requires CausalInv(s, c, false) && s.enabled && s.error.None? && task != NULL
    requires ProbeOf(s, task).Some? && ProbeOf(s, task).value < |s.probes|
    requires s.current == (if c == [] then NULL else c[|c| - 1])
    ensures var s1 := SwitchedTcb(s, task);
            var s2 := if s.current != task then MergeSnapshot(s1, mergeOk) else s1;
            s2.error.None? ==> CausalInv(s2, Extend(c, task), true) && s2.current == task && s2.enabled
  {
    hide FindSlot, ProbeOf, CausalInv;
    if c == [] {
      FirstSwitchIn(s, task);
      assert c + [task] == [task];
    } else if c[|c| - 1] != task {
      LastTraced(s, c);
      MergeKeepsCausal(s, c, task);
      MergeUnfolds(s, c, task, mergeOk);
    } else {
      StaysCausal(s, c);
    }
  }

  lemma LastTraced(s: State, c: seq<Handle>)
    requires CausalInv(s, c, false) && c != []
    ensures ProbeOf(s, c[|c| - 1]).Some? && c[|c| - 1] != NULL
  {
    hide FindSlot;
  }

  lemma StaysCausal(s: State, c: seq<Handle>)
    requires CausalInv(s, c, false)
    ensures CausalInv(s, c, true)
  {
    hide FindSlot, ProbeOf, Complete, Sound;
  }

  lemma MergeUnfolds(s: State, c: seq<Handle>, task: Handle, ok: bool)
    requires c != [] && s.current == c[|c| - 1] != task && s.current != NULL && task != NULL
    requires s.enabled && ProbeOf(s, task).Some? && ProbeOf(s, s.current).Some?
    ensures var s1 := s.(previous := s.current, current := task);
            MergeSnapshot(s1, ok) ==
            if ok then MergeInto(s1, ProbeOf(s, task), SlotOf(s, c[|c| - 1]).snapshot) else Abort(s1, MergeFailed)
  {
    hide FindSlot;
  }

  lemma SwitchOutKeepsHistory(cfg: Config, s: State, k: Kernel, c: seq<Handle>, op: Op)
    requires op.SwitchedOut? && Gate(s, op.task) && Allowed(cfg, k, op)
    requires RegistryInv(cfg, s, k) && AttributionInv(s, k, c) && Good(s, k) && s.enabled && CausalInv(s, c, true)
    ensures var t := Step(cfg, s, op); t.error.None? ==> CausalInv(t, c, false)
  {
    var e := Event(TASK_SWITCHED_OUT, None);
    var s1 := LogEvent(s, e, op.recordOk);
    RunningIsLast(s, k, c);
    hide CausalInv, LogEvent, ProduceSnapshot, Gate, FindSlot, RegistryInv, AttributionInv;
    LogKeepsCausal(s, c, e, op.recordOk);
    ProduceLatches(s1, op.snapshotOk);
    if s1.error.None? {
      ProduceKeepsCausal(s1, c, op.snapshotOk);
    }
  }

  lemma HookKeepsHistory(cfg: Config, s: State, k: Kernel, c: seq<Handle>, op: Op)
    requires op.Hook? && Gate(s, op.task) && Allowed(cfg, k, op)
    requires RegistryInv(cfg, s, k) && AttributionInv(s, k, c) && Good(s, k) && CausalInv(s, c, Live(s, k))
    requires k.started ==> s.enabled
    ensures var t := Step(cfg, s, op); t.error.None? ==> CausalInv(t, c, Live(t, k))
  {
    if k.started {
      RunningIsLast(s, k, c);
      hide CausalInv, Gate, FindSlot, RegistryInv, AttributionInv, LogEvent;
      LogKeepsCausal(s, c, op.event, op.recordOk);
    } else {
      hide CausalInv, Gate, FindSlot, RegistryInv;
    }
  }

  // ----- Creation -----

  lemma InstalledProbeOf(cfg: Config, s: State, t: State, k: Kernel, task: Handle, id: bv16, priority: nat, h: Handle)
    requires RegistryInv(cfg, s, k) && task != NULL && task !in k.names && Installed(s, t, task, id, priority)
    ensures ProbeOf(t, h) == if h == task then Some(|s.probes|) else ProbeOf(s, h)
    ensures h != task && ProbeOf(s, h).Some? ==> SlotOf(t, h) == SlotOf(s, h)
  {
    hide Filter, ProbeId, HashName, FindSlotFrom;
    FreshTask(cfg, s, k, task);
    var n := FindSlot(s.slots, NULL).value;
    var i, j := FindSlot(s.slots, h), FindSlot(t.slots, h);
    if h == task {
      assert t.slots[n].tcb == task;
      assert j == Some(n);
    } else if h != NULL {
      if i.Some? {
        assert t.slots[i.value].tcb == h;
      }
      if j.Some? {
        assert s.slots[j.value].tcb == h;
      }
      assert i == j;
    }
  }

  /** The new probe knows its own creation only, and the others know what they knew. */
  lemma InstalledKeepsSound(s: State, t: State, c: seq<Handle>, priority: nat)
    requires |t.probes| == |s.probes| + 1 && t.probes[..|s.probes|] == s.probes
    requires t.probes[|s.probes|].log == [Event(TASK_CREATE, Some(priority))]
    requires t.probes[|s.probes|].past == {Stamp(|s.probes|, 0)}
    requires forall q: nat :: Ran(t, c, q) == Ran(s, c, q)
    requires forall q :: 0 <= q < |s.probes| ==> Sound(s, c, q)
    ensures forall q :: 0 <= q < |t.probes| ==> Sound(t, c, q)
    ensures forall q :: 0 <= q < |s.probes| ==> t.probes[q] == s.probes[q]
  {
    hide ProbeOf, Ran;
    var n := |s.probes|;
    forall q | 0 <= q < n
      ensures t.probes[q] == s.probes[q]
    {
      assert t.probes[..n][q] == s.probes[q];
    }
    forall q | 0 <= q < |t.probes|
      ensures Sound(t, c, q)
    {
      if q < n {
        assert Sound(s, c, q);
      }
    }
  }

  lemma InstalledKeepsCausal(cfg: Config, s: State, t: State, k: Kernel, c: seq<Handle>, task: Handle, id: bv16,
                             priority: nat, live: bool)
    requires RegistryInv(cfg, s, k) && task != NULL && task !in k.names && Installed(s, t, task, id, priority)
    requires t.error.None? && t.merges == s.merges && task !in c && CausalInv(s, c, live)
    ensures CausalInv(t, c, live)
  {
    var n := |s.probes|;
    forall h
      ensures h != task ==> ProbeOf(t, h) == ProbeOf(s, h)
      ensures h != task && ProbeOf(s, h).Some? ==> SlotOf(t, h) == SlotOf(s, h)
    {
      InstalledProbeOf(cfg, s, t, k, task, id, priority, h);
    }
    NotRanYet(cfg, s, k, c, n);
    assert t.probes[n].log == [Event(TASK_CREATE, Some(priority))] && t.probes[n].past == {Stamp(n, 0)};
    hide FindSlot, ProbeOf, Installed, RegistryInv, SlotOf;
    forall q: nat
      ensures Ran(t, c, q) == Ran(s, c, q)
    {
    }
    InstalledKeepsSound(s, t, c, priority);
    hide Sound;
  }

  lemma SlotNamesProbe(cfg: Config, s: State, k: Kernel, h: Handle)
    requires RegistryInv(cfg, s, k)
    ensures ProbeOf(s, h).Some? ==> ProbeOf(s, h).value < |s.probes|
  {
    hide Filter, ProbeId, FindSlotFrom, HashName;
    if Traced(s, h) {
      assert SlotInv(s, k, SlotOf(s, h));
    }
  }

  lemma NotRanYet(cfg: Config, s: State, k: Kernel, c: seq<Handle>, p: nat)
    requires RegistryInv(cfg, s, k) && p >= |s.probes|
    ensures !Ran(s, c, p)
  {
    hide RegistryInv, ProbeOf;
    forall h
      ensures ProbeOf(s, h) != Some(p)
    {
      SlotNamesProbe(cfg, s, k, h);
    }
  }

  lemma CreateKeepsHistory(cfg: Config, s: State, k: Kernel, c: seq<Handle>, op: Op)
    requires op.Create? && Allowed(cfg, k, op)
    requires RegistryInv(cfg, s, k) && AttributionInv(s, k, c) && Good(s, k) && CausalInv(s, c, Live(s, k))
    ensures var t := Step(cfg, s, op); t.error.None? ==> CausalInv(t, c, Live(s, k))
  {
    var t, task, id := Step(cfg, s, op), op.task, HashName(op.name);
    FreshTask(cfg, s, k, task);
    NotInChain(s, k, c, task);
    if s.enabled {
      RegisterEffect(cfg, s, task, op.name, op.priority, op.env);
      hide CausalInv, Register, HashName, RegistryInv, Installed, Filter, Numbered;
      if t.error.None? {
        if Installed(s, t, task, id, op.priority) {
          InstalledKeepsCausal(cfg, s, t, k, c, task, id, op.priority, Live(s, k));
        } else {
          QuietKeepsCausal(s, t, c, Live(s, k));
        }
      }
    }
  }

  lemma NotInChain(s: State, k: Kernel, c: seq<Handle>, task: Handle)
    requires AttributionInv(s, k, c) && task !in s.numbers
    ensures task !in c
  {
  }

  lemma OtherKeepsHistory(cfg: Config, s: State, k: Kernel, c: seq<Handle>, op: Op)
    requires op.Enable? || op.Disable? || op.Exclude? || op.Deliver? || op.Process? || op.IoFailure?
    requires CausalInv(s, c, Live(s, k))
    ensures CausalInv(Step(cfg, s, op), c, Live(s, k))
    ensures Step(cfg, s, op).current == s.current
  {
    OtherIsQuiet(cfg, s, op);
    hide Step, CausalInv;
    QuietKeepsCausal(s, Step(cfg, s, op), c, Live(s, k));
  }

  lemma OtherIsQuiet(cfg: Config, s: State, op: Op)
    requires op.Enable? || op.Disable? || op.Exclude? || op.Deliver? || op.Process? || op.IoFailure?
    ensures SameTable(s, Step(cfg, s, op)) && SameEvents(s, Step(cfg, s, op))
    ensures Step(cfg, s, op).current == s.current
  {
    hide FindId, HashName, EnableTracing, Route, ProcessMessages;
    match op
    case Enable(caller, ioTask, env) => EnableKeepsCurrent(cfg, s, caller, ioTask, env);
    case Deliver(m, to) => RouteKeepsEvents(cfg, s, m, to);
    case Process(task, ok) => ProcessKeepsEvents(cfg, s, task, ok);
    case _ =>
  }

  lemma RouteKeepsEvents(cfg: Config, s: State, m: Message, to: Option<Destination>)
    ensures SameTable(s, Route(cfg, s, m, to)) && SameEvents(s, Route(cfg, s, m, to))
    ensures Route(cfg, s, m, to).current == s.current
  {
    hide HasRoom, Reaches, ProbeId;
  }

  lemma ProcessKeepsEvents(cfg: Config, s: State, task: Handle, ok: bool)
    ensures SameTable(s, ProcessMessages(cfg, s, task, ok)) && SameEvents(s, ProcessMessages(cfg, s, task, ok))
    ensures ProcessMessages(cfg, s, task, ok).current == s.current
  {
    hide FindSlotFrom;
  }

  lemma StepKeepsHistory(cfg: Config, s: State, k: Kernel, c: seq<Handle>, op: Op)
    requires Allowed(cfg, k, op) && RegistryInv(cfg, s, k) && AttributionInv(s, k, c) && HistoryInv(s, k, c)
    ensures HistoryInv(Step(cfg, s, op), KernelStep(k, op),
                       if op.SwitchedIn? && Gate(s, op.task) then Extend(c, op.task) else c)
  {
    var t, l := Step(cfg, s, op), KernelStep(k, op);
    if Good(t, l) {
      GoodBefore(cfg, s, k, op);
      StepKeepsAttribution(cfg, s, k, op, c);
      hide CausalInv, RegistryInv, Gate, LogEvent, MergeSnapshot, ProduceSnapshot;
      if op.SwitchedIn? {
        SwitchedInHistory(cfg, s, k, c, op);
      } else if op.SwitchedOut? {
        SwitchedOutHistory(cfg, s, k, c, op);
      } else if op.Hook? {
        if Gate(s, op.task) {
          HookKeepsHistory(cfg, s, k, c, op);
        }
      } else if op.Create? {
        CreateKeepsHistory(cfg, s, k, c, op);
        StepKeepsCurrent(cfg, s, k, op);
        hide Step;
      } else {
        OtherKeepsHistory(cfg, s, k, c, op);
        hide Step;
      }
    }
  }

  lemma SwitchedInHistory(cfg: Config, s: State, k: Kernel, c: seq<Handle>, op: Op)
    requires op.SwitchedIn? && Good(Step(cfg, s, op), KernelStep(k, op)) && s.enabled
    requires Allowed(cfg, k, op) && RegistryInv(cfg, s, k) && AttributionInv(s, k, c) && Good(s, k)
             && CausalInv(s, c, Live(s, k))
    ensures HistoryInv(Step(cfg, s, op), KernelStep(k, op), if Gate(s, op.task) then Extend(c, op.task) else c)
  {
    if Gate(s, op.task) {
      SwitchInKeepsHistory(cfg, s, k, c, op);
      SwitchInCurrent(s, op.task, op.priority, op.mergeOk, op.recordOk);
      hide CausalInv, RegistryInv, Gate, SwitchIn, AttributionInv;
      NotNull(cfg, s, k, op.task);
    } else {
      NotCurrent(s, k, c, op.task);
      hide CausalInv, RegistryInv, Gate;
    }
  }

  lemma SwitchedOutHistory(cfg: Config, s: State, k: Kernel, c: seq<Handle>, op: Op)
    requires op.SwitchedOut? && Good(Step(cfg, s, op), KernelStep(k, op)) && s.enabled
    requires Allowed(cfg, k, op) && RegistryInv(cfg, s, k) && AttributionInv(s, k, c) && Good(s, k)
             && CausalInv(s, c, Live(s, k))
    ensures HistoryInv(Step(cfg, s, op), KernelStep(k, op), c)
  {
    if Gate(s, op.task) {
      RunningIsLast(s, k, c);
      hide CausalInv, RegistryInv, Gate, AttributionInv, LogEvent, ProduceSnapshot;
      SwitchOutKeepsHistory(cfg, s, k, c, op);
    } else {
      NotCurrent(s, k, c, op.task);
      hide CausalInv, RegistryInv, Gate;
    }
  }

  lemma {:induction false} ReachableHistory(cfg: Config, ops: seq<Op>)
    requires Legal(cfg, ops)
    ensures HistoryInv(Run(cfg, ops), KernelRun(ops), Chain(cfg, ops))
  {
    if ops == [] {
    } else {
      hide *;
      var front, op := ops[..|ops| - 1], ops[|ops| - 1];
      LastStep(cfg, ops);
      ReachableHistory(cfg, front);
      ReachableRegistry(cfg, front);
      ReachableAttribution(cfg, front);
      StepKeepsHistory(cfg, Run(cfg, front), KernelRun(front), Chain(cfg, front), op);
      ChainStep(cfg, front, op);
    }
  }

  // ----- The theorems -----

  /**
   * Whenever a traced task is running, tracing is on and no error is recorded, its probe's causal past
   * consists of exactly the events logged so far for the tasks that have been switched in.
   */
  lemma CausalCompleteness(cfg: Config, ops: seq<Op>)
    requires Legal(cfg, ops)
    ensures var s, task := Run(cfg, ops), KernelRun(ops).running;
            task != NULL && Gate(s, task) && s.enabled && s.error.None? ==>
              && ProbeOf(s, task).Some? && ProbeOf(s, task).value < |s.probes|
              && forall e: Stamp :: e in s.probes[ProbeOf(s, task).value].past <==>
                   Logged(s, e) && exists h :: h in TracedIns(cfg, ops) && ProbeOf(s, h) == Some(e.probe)
  {
    hide Gate, Legal, Run, KernelRun, TracedIns, ProbeOf, FindSlot;
    var s, k, c := Run(cfg, ops), KernelRun(ops), Chain(cfg, ops);
    var task := k.running;
    ReachableAttribution(cfg, ops);
    ReachableHistory(cfg, ops);
    if task != NULL && Gate(s, task) && s.enabled && s.error.None? {
      RunningIsLast(s, k, c);
      CurrentTraced(s, c);
      LastKnows(s, c);
    }
  }

  lemma LastKnows(s: State, c: seq<Handle>)
    requires CausalInv(s, c, true) && c != []
    ensures var p := ProbeOf(s, c[|c| - 1]); p.Some? && p.value < |s.probes| && Complete(s, c, s.probes[p.value].past)
  {
    hide FindSlot;
  }

  /**
   * The merges of a run are exactly the hand-overs of its chain of traced tasks: merge number `i` took
   * the snapshot of the chain's task `i` into its task `i + 1`, which is another task.
   */
  lemma MergesAreHandOvers(cfg: Config, ops: seq<Op>)
    requires Legal(cfg, ops) && Good(Run(cfg, ops), KernelRun(ops))
    ensures var s, c := Run(cfg, ops), Chain(cfg, ops);
            && |s.merges| == (if c == [] then 0 else |c| - 1)
            && forall i :: 0 <= i < |s.merges| ==>
                 && s.merges[i].snapshot.Snapshot?
                 && ProbeOf(s, c[i]) == Some(s.merges[i].snapshot.origin)
                 && ProbeOf(s, c[i + 1]) == Some(s.merges[i].into)
                 && c[i] != c[i + 1]
  {
    hide Gate, Legal, Run, KernelRun, TracedIns, ProbeOf, FindSlot;
    ReachableAttribution(cfg, ops);
    ReachableHistory(cfg, ops);
    var c := Chain(cfg, ops);
    forall i | 0 <= i < |c| - 1
      ensures c[i] != c[i + 1]
    {
      assert c[(i + 1) - 1] != c[i + 1];
    }
  }

  /** A merge takes over everything its predecessor knows, because it knew it when it was switched out. */
  lemma MergeTakesAll(cfg: Config, ops: seq<Op>, op: Op)
    requires Legal(cfg, ops) && op.SwitchedIn? && Allowed(cfg, KernelRun(ops), op)
    requires var s := Run(cfg, ops); Gate(s, op.task) && s.current != NULL && s.current != op.task
    requires Good(Step(cfg, Run(cfg, ops), op), KernelStep(KernelRun(ops), op))
    ensures var s := Run(cfg, ops);
            var t, p, q := Step(cfg, s, op), ProbeOf(s, op.task), ProbeOf(s, s.current);
            && p.Some? && q.Some? && q.value < |s.probes|
            && t.merges == s.merges + [Merge(p.value, Snapshot(q.value, s.probes[q.value].past))]
  {
    var s, k, c := Run(cfg, ops), KernelRun(ops), Chain(cfg, ops);
    hide Legal, Run, KernelRun, TracedIns, Chain;
    ReachableRegistry(cfg, ops);
    ReachableAttribution(cfg, ops);
    ReachableHistory(cfg, ops);
    GoodBefore(cfg, s, k, op);
    hide RegistryInv;
    GatedIsTraced(cfg, s, k, op.task);
    NotNull(cfg, s, k, op.task);
    assert !Live(s, k);
    LastKnows(s, c) by { StaysCausal(s, c); }
    StoredIsPast(s, c);
    hide CausalInv, Gate, Complete, AttributionInv;
    MergeUnfolds(s, c, op.task, op.mergeOk);
    hide FindSlot, ProbeOf, SlotOf;
    var s2 := MergeSnapshot(s.(previous := s.current, current := op.task), op.mergeOk);
    var e := Event(TASK_SWITCHED_IN, Some(op.priority));
    LogKeepsMerges(s2, e, op.recordOk);
    LogLatches(s2, e, op.recordOk);
  }

  lemma StoredIsPast(s: State, c: seq<Handle>)
    requires CausalInv(s, c, false) && c != []
    ensures var p := ProbeOf(s, c[|c| - 1]);
            && p.Some? && p.value < |s.probes|
            && SlotOf(s, c[|c| - 1]).snapshot == Snapshot(p.value, s.probes[p.value].past)
  {
    hide FindSlot;
  }

  lemma LogKeepsMerges(s: State, e: Event, ok: bool)
    ensures LogEvent(s, e, ok).merges == s.merges
  {
    hide FindSlot;
  }
}
