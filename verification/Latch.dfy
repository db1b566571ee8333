/** The error latch, critical sections left open, and what a disabled backend leaves alone. */
module Latch {
  import opened Options
  import opened ProbeIdHash
  import opened Trace
  import opened Registry

  /**
   * From `s` to `t` an error once recorded stays, tracing is not switched on and is off after any new
   * error, and at most one critical section is left open, and then an error is recorded.
   */
  ghost predicate Latches(s: State, t: State) {
    && (s.error.Some? ==> t.error == s.error)
    && (t.enabled ==> s.enabled && t.error == s.error)
    && (t.unclosed == s.unclosed || (t.unclosed == s.unclosed + 1 && s.enabled && !t.enabled && t.error.Some?))
    && RaisesDisable(s, t)
  }

  lemma LatchesTransitive(s: State, t: State, u: State)
    requires Latches(s, t) && Latches(t, u)
    ensures Latches(s, u)
  {
  }

  lemma LogLatches(s: State, e: Event, ok: bool)
    ensures Latches(s, LogEvent(s, e, ok))
  {
    hide FindSlotFrom;
  }

  lemma MergeLatches(s: State, ok: bool)
    ensures Latches(s, MergeSnapshot(s, ok))
  {
    hide FindSlotFrom;
  }

  lemma ProduceLatches(s: State, ok: bool)
    ensures Latches(s, ProduceSnapshot(s, ok))
  {
    hide FindSlotFrom;
  }

  lemma SwitchInLatches(s: State, task: Handle, priority: nat, mergeOk: bool, recordOk: bool)
    ensures Latches(s, SwitchIn(s, task, priority, mergeOk, recordOk))
  {
    hide Gate, LogEvent, MergeSnapshot;
    if Gate(s, task) {
      var e := Event(TASK_SWITCHED_IN, Some(priority));
      var s1 := SwitchedTcb(s, task);
      var s2 := if s.current != task then MergeSnapshot(s1, mergeOk) else s1;
      MergeLatches(s1, mergeOk);
      LogLatches(s2, e, recordOk);
      assert Latches(s, s1) && Latches(s1, s2);
      LatchesTransitive(s, s1, s2);
      LatchesTransitive(s, s2, LogEvent(s2, e, recordOk));
    }
  }

  lemma SwitchOutLatches(s: State, task: Handle, recordOk: bool, snapshotOk: bool)
    ensures Latches(s, SwitchOut(s, task, recordOk, snapshotOk))
  {
    hide Gate, LogEvent, ProduceSnapshot;
    var e := Event(TASK_SWITCHED_OUT, None);
    var s1 := LogEvent(s, e, recordOk);
    LogLatches(s, e, recordOk);
    ProduceLatches(s1, snapshotOk);
    LatchesTransitive(s, s1, ProduceSnapshot(s1, snapshotOk));
  }

  lemma RegisterLatches(cfg: Config, s: State, task: Handle, name: Bytes, priority: nat, env: CreateEnv)
    requires task != NULL && SlotsInOrder(s.slots)
    ensures Latches(s, Register(cfg, s, task, name, priority, env))
  {
    hide HashName, SetFilter, SetProbeId, AllocProbe, AddTcbProbe;
    if s.enabled {
      RegisterUnfolds(cfg, s, task, name, priority, env);
      var s1 := Identified(s, task, name);
      IdentifiedEffect(s, task, name);
      if HashName(name) !in s1.excluded {
        var (s2, probe) := AllocProbe(cfg, s1, HashName(name), env);
        AllocProbeEffect(cfg, s1, HashName(name), env);
        assert Latches(s, s2);
        if probe.Some? {
          var s3 := AddTcbProbe(cfg, s2, task, probe.value, env);
          AddTcbProbeEffect(cfg, s2, task, probe.value, env);
          SetFilterEffect(s3, task, 0xFFFF);
        }
      }
    }
  }

  lemma OtherLatches(cfg: Config, s: State, op: Op)
    requires op.Disable? || op.Exclude? || op.Deliver? || op.Process? || op.IoFailure?
    ensures Latches(s, Step(cfg, s, op)) && Step(cfg, s, op).unclosed == s.unclosed
  {
    hide HashName, FindId, FindSlot, HasRoom, Reaches, ProbeId;
  }

  lemma EnableLatches(cfg: Config, s: State, caller: Handle, created: Handle, env: CreateEnv)
    ensures var t := EnableTracing(cfg, s, caller, created, env);
            && (s.error.Some? ==> t.error == s.error) && (t.error.None? ==> s.error.None?)
            && t.unclosed == s.unclosed
            && (t.enabled <==> s.enabled || caller == NULL)
  {
    hide HashName, FindId;
  }

  lemma StepLatches(cfg: Config, s: State, k: Kernel, op: Op)
    requires RegistryInv(cfg, s, k) && !op.Enable?
    ensures Latches(s, Step(cfg, s, op))
  {
    hide SwitchIn, SwitchOut, Register, LogEvent, Gate;
    match op
    case Create(task, name, priority, env) =>
      if task != NULL {
        RegisterLatches(cfg, s, task, name, priority, env);
      }
    case SwitchedIn(task, priority, mergeOk, recordOk) => SwitchInLatches(s, task, priority, mergeOk, recordOk);
    case SwitchedOut(task, recordOk, snapshotOk) => SwitchOutLatches(s, task, recordOk, snapshotOk);
    case Hook(task, e, ok) => LogLatches(s, e, ok);
    case _ => OtherLatches(cfg, s, op);
  }
}
