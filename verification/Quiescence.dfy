/** Errors over whole runs: the latch, what stays still while tracing is off, and critical sections. */
module Quiescence {
  import opened Options
  import opened ProbeIdHash
  import opened Trace
  import opened Registry
  import opened Latch
  import opened Runs

  // ----- The latch -----

  lemma ErrorStays(cfg: Config, s: State, k: Kernel, op: Op)
    requires RegistryInv(cfg, s, k) && s.error.Some?
    ensures Step(cfg, s, op).error == s.error
  {
    hide RegistryInv, EnableTracing;
    if op.Enable? {
      EnableLatches(cfg, s, op.caller, op.ioTask, op.ioEnv);
    } else {
      StepLatches(cfg, s, k, op);
    }
    hide Step;
  }

  /** The first error is never replaced, however the run goes on and however often tracing is enabled again. */
  lemma {:induction false} FirstErrorIsNeverReplaced(cfg: Config, ops: seq<Op>, more: seq<Op>)
    requires Legal(cfg, ops + more) && Run(cfg, ops).error.Some?
    ensures Run(cfg, ops + more).error == Run(cfg, ops).error
  {
    if more == [] {
      assert ops + more == ops;
    } else {
      var rest, op := more[..|more| - 1], more[|more| - 1];
      RunContinues(cfg, ops, more);
      ReachableRegistry(cfg, ops + rest);
      FirstErrorIsNeverReplaced(cfg, ops, rest);
      hide *;
      ErrorStays(cfg, Run(cfg, ops + rest), KernelRun(ops + rest), op);
    }
  }

  // ----- Quiescence -----

  /** All that tracing keeps is as it was, but for what lies in control plane buffers. */
  ghost predicate Quiet(s: State, t: State) {
    && t.nextStorage == s.nextStorage && t.merges == s.merges && t.numbers == s.numbers && t.unclosed == s.unclosed
    && |t.slots| == |s.slots| && |t.probes| == |s.probes|
    && (forall i :: 0 <= i < |s.slots| ==> t.slots[i] == s.slots[i].(messages := t.slots[i].messages))
    && (forall p :: 0 <= p < |s.probes| ==> t.probes[p] == s.probes[p].(control := t.probes[p].control))
  }

  lemma QuietTransitive(s: State, t: State, u: State)
    requires Quiet(s, t) && Quiet(t, u)
    ensures Quiet(s, u)
  {
  }

  lemma DisabledLogs(s: State, e: Event, ok: bool)
    requires !s.enabled
    ensures LogEvent(s, e, ok) == s && MergeSnapshot(s, ok) == s && ProduceSnapshot(s, ok) == s
  {
  }

  lemma DisabledSwitchIn(s: State, task: Handle, priority: nat, mergeOk: bool, recordOk: bool)
    requires !s.enabled
    ensures var t := SwitchIn(s, task, priority, mergeOk, recordOk);
            t == s.(current := t.current, previous := t.previous)
  {
    var s1 := SwitchedTcb(s, task);
    DisabledLogs(s1, Event(TASK_SWITCHED_IN, Some(priority)), mergeOk);
    DisabledLogs(s1, Event(TASK_SWITCHED_IN, Some(priority)), recordOk);
    hide Gate, LogEvent, MergeSnapshot;
  }

  lemma DisabledSwitchOut(s: State, task: Handle, recordOk: bool, snapshotOk: bool)
    requires !s.enabled
    ensures SwitchOut(s, task, recordOk, snapshotOk) == s
  {
    DisabledLogs(s, Event(TASK_SWITCHED_OUT, None), recordOk);
    DisabledLogs(s, Event(TASK_SWITCHED_OUT, None), snapshotOk);
    hide Gate, LogEvent, ProduceSnapshot;
  }

  lemma RouteIsQuiet(cfg: Config, s: State, m: Message, to: Option<Destination>)
    ensures Quiet(s, Route(cfg, s, m, to)) && Route(cfg, s, m, to).enabled == s.enabled
  {
    hide HasRoom, Reaches, ProbeId;
  }

  lemma ProcessIsQuiet(cfg: Config, s: State, task: Handle, ok: bool)
    ensures var t := ProcessMessages(cfg, s, task, ok); Quiet(s, t) && (t.enabled ==> s.enabled)
  {
    hide FindSlotFrom;
  }

  lemma DisabledStepIsQuiet(cfg: Config, s: State, op: Op)
    requires !s.enabled && !op.Enable?
    ensures !Step(cfg, s, op).enabled && Quiet(s, Step(cfg, s, op))
  {
    hide Gate, FindSlotFrom, FindIdFrom, HashName, RouteToSlot, ProbeId, EnableTracing, SwitchIn, SwitchOut, LogEvent,
         Route, ProcessMessages;
    match op
    case Deliver(m, to) => RouteIsQuiet(cfg, s, m, to);
    case Process(task, ok) => ProcessIsQuiet(cfg, s, task, ok);
    case SwitchedIn(task, priority, mergeOk, recordOk) => DisabledSwitchIn(s, task, priority, mergeOk, recordOk);
    case SwitchedOut(task, recordOk, snapshotOk) => DisabledSwitchOut(s, task, recordOk, snapshotOk);
    case Hook(task, e, ok) => DisabledLogs(s, e, ok);
    case _ =>
  }

  /**
   * From the moment tracing is off until it is enabled again no step changes a log, a causal past, a slot, a
   * snapshot, a task's number, the storage index, the merges, or a critical section.
   */
  lemma {:induction false} QuietUntilEnabled(cfg: Config, ops: seq<Op>, more: seq<Op>)
    requires Legal(cfg, ops + more) && !Run(cfg, ops).enabled && forall op :: op in more ==> !op.Enable?
    ensures !Run(cfg, ops + more).enabled && Quiet(Run(cfg, ops), Run(cfg, ops + more))
  {
    if more == [] {
      assert ops + more == ops;
    } else {
      var rest, op := more[..|more| - 1], more[|more| - 1];
      RunContinues(cfg, ops, more);
      assert op in more && forall o :: o in rest ==> o in more;
      QuietUntilEnabled(cfg, ops, rest);
      hide *;
      DisabledStepIsQuiet(cfg, Run(cfg, ops + rest), op);
      QuietTransitive(Run(cfg, ops), Run(cfg, ops + rest), Run(cfg, ops + more));
    }
  }

  /** So it is after `vTraceDisable`. */
  lemma QuietAfterDisable(cfg: Config, ops: seq<Op>, more: seq<Op>)
    requires Legal(cfg, ops + [Disable] + more) && forall op :: op in more ==> !op.Enable?
    ensures var t := Run(cfg, ops + [Disable] + more); !t.enabled && Quiet(Run(cfg, ops), t)
  {
    RunExtends(cfg, ops, Disable);
    assert !Run(cfg, ops + [Disable]).enabled && Quiet(Run(cfg, ops), Run(cfg, ops + [Disable]));
    hide *;
    QuietUntilEnabled(cfg, ops + [Disable], more);
    QuietTransitive(Run(cfg, ops), Run(cfg, ops + [Disable]), Run(cfg, ops + [Disable] + more));
  }

  lemma LateEnableIsQuiet(cfg: Config, s: State, op: Op)
    requires !s.enabled && op.Enable? && op.caller != NULL
    ensures !Step(cfg, s, op).enabled && Quiet(s, Step(cfg, s, op))
  {
    EnableUnfolds(cfg, s, op.caller, op.ioTask, op.ioEnv);
    hide EnableTracing, ExcludeTask;
  }

  lemma StaysStarted(k: Kernel, op: Op)
    ensures k.started ==> KernelStep(k, op).started
  {
  }

  /** Once the scheduler has started, tracing that is off stays off and all is still, whatever the rest of the run. */
  lemma {:induction false} QuietForEver(cfg: Config, ops: seq<Op>, more: seq<Op>)
    requires Legal(cfg, ops + more) && KernelRun(ops).started && !Run(cfg, ops).enabled
    ensures KernelRun(ops + more).started
    ensures !Run(cfg, ops + more).enabled && Quiet(Run(cfg, ops), Run(cfg, ops + more))
  {
    if more == [] {
      assert ops + more == ops;
    } else {
      hide Run, KernelRun, Legal, Step, KernelStep, Quiet;
      var rest, op := more[..|more| - 1], more[|more| - 1];
      RunContinues(cfg, ops, more);
      RunExtends(cfg, ops + rest, op);
      QuietForEver(cfg, ops, rest);
      StaysStarted(KernelRun(ops + rest), op);
      if op.Enable? {
        LateEnableIsQuiet(cfg, Run(cfg, ops + rest), op);
      } else {
        DisabledStepIsQuiet(cfg, Run(cfg, ops + rest), op);
      }
      QuietTransitive(Run(cfg, ops), Run(cfg, ops + rest), Run(cfg, ops + more));
    }
  }

  /** So it is after any step but enabling in which an error is raised, whether or not one is recorded already. */
  lemma QuietAfterError(cfg: Config, ops: seq<Op>, op: Op, more: seq<Op>)
    requires Legal(cfg, ops + [op] + more) && !op.Enable? && forall o :: o in more ==> !o.Enable?
    requires Step(cfg, Run(cfg, ops), op).raises != Run(cfg, ops).raises
    ensures Quiet(Run(cfg, ops + [op]), Run(cfg, ops + [op] + more))
  {
    LegalPrefix(cfg, ops + [op], more);
    RunContinues(cfg, ops, [op]);
    assert ops + [op][..0] == ops;
    ReachableRegistry(cfg, ops);
    StepLatches(cfg, Run(cfg, ops), KernelRun(ops), op);
    hide Step, Legal, KernelRun, Run, RegistryInv, Quiet;
    QuietUntilEnabled(cfg, ops + [op], more);
  }

  // ----- Enabling with an error -----

  /**
   * What enabling comes to, exactly. While tracing is on it does nothing. Otherwise it ends enabled unless it is
   * called with a task running; and when it sets up the IO task, which is when there is none yet, it may end enabled
   * with an error recorded: if the task's name is empty, if the exclusion list is full, or if the task cannot be
   * created.
   */
  lemma EnableOutcome(cfg: Config, s: State, caller: Handle, created: Handle, env: CreateEnv)
    ensures var t := EnableTracing(cfg, s, caller, created, env);
            var setsUp := !s.enabled && caller == NULL && cfg.includeIoTask && s.ioTask == NULL;
            && (s.enabled ==> t == s)
            && t.enabled == (s.enabled || caller == NULL)
            && t == s.(enabled := t.enabled, error := t.error, raises := t.raises, excluded := t.excluded,
                       ioTask := if setsUp then created else s.ioTask)
            && (!setsUp ==> t.excluded == s.excluded)
            && t.error == (if s.error.Some? || s.enabled then s.error
                           else if caller != NULL then Some(EnabledAfterScheduler)
                           else if !setsUp then None
                           else if HashedLength(cfg.ioTaskName) == 0 then Some(EmptyName)
                           else if 0 !in s.excluded then Some(NoExcludedSlots)
                           else if created == NULL then Some(NoIoTask)
                           else None)
  {
    EnableUnfolds(cfg, s, caller, created, env);
    hide EnableTracing, HashName, FindIdFrom;
  }

  /**
   * One call at start-up ends enabled with an error recorded exactly when an IO task is configured and its name is
   * empty, no task can be excluded, or it cannot be created.
   */
  lemma EnabledWithErrorAtStart(cfg: Config, created: Handle, env: CreateEnv)
    ensures Legal(cfg, [Enable(NULL, created, env)])
    ensures var s := Run(cfg, [Enable(NULL, created, env)]);
            && s.enabled
            && (s.error.Some? <==>
                  cfg.includeIoTask && (HashedLength(cfg.ioTaskName) == 0 || cfg.maxExcluded == 0 || created == NULL))
  {
    var op := Enable(NULL, created, env);
    EnableOutcome(cfg, Init(cfg), NULL, created, env);
    hide EnableTracing, HashedLength;
    assert [op][..0] == [];
    assert cfg.maxExcluded > 0 ==> Init(cfg).excluded[0] == 0;
    assert Run(cfg, [op]) == Step(cfg, Init(cfg), op);
  }

  // ----- Critical sections -----

  ghost function Enables(ops: seq<Op>): nat {
    if ops == [] then 0 else Enables(ops[..|ops| - 1]) + if ops[|ops| - 1].Enable? then 1 else 0
  }

  lemma StepSections(cfg: Config, s: State, k: Kernel, op: Op)
    requires RegistryInv(cfg, s, k)
    ensures var t := Step(cfg, s, op);
            && (t.unclosed == s.unclosed || (t.unclosed == s.unclosed + 1 && s.enabled && !t.enabled))
            && (t.enabled ==> s.enabled || op.Enable?)
            && (t.error.None? ==> s.error.None? && t.unclosed == s.unclosed)
  {
    hide RegistryInv, EnableTracing;
    if op.Enable? {
      EnableLatches(cfg, s, op.caller, op.ioTask, op.ioEnv);
    } else {
      StepLatches(cfg, s, k, op);
    }
    hide Step;
  }

  /**
   * Every entry point leaves the critical sections as it found them, except when an assertion fails inside one:
   * then an error is recorded, and it happens at most once for every time tracing was enabled.
   */
  lemma {:induction false} SectionsBalance(cfg: Config, ops: seq<Op>)
    requires Legal(cfg, ops)
    ensures var s := Run(cfg, ops);
            && (s.error.None? ==> s.unclosed == 0)
            && s.unclosed + (if s.enabled then 1 else 0) <= Enables(ops)
  {
    if ops == [] {
    } else {
      var front, op := ops[..|ops| - 1], ops[|ops| - 1];
      SectionsBalance(cfg, front);
      ReachableRegistry(cfg, front);
      hide RegistryInv, Step, Allowed;
      StepSections(cfg, Run(cfg, front), KernelRun(front), op);
    }
  }
}
