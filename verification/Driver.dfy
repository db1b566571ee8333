/** A kernel that drives the backend: whole runs of the class are runs of the abstract machine. */
module Driver {
  import opened Quiescence
  import opened Runs
  import opened Trace
  import opened Tracer

  /** One call of an entry point or hook. Unless it leaves a critical section open, the port is as it was. */
  method Perform(b: Backend, op: Op)
    requires b.Valid()
    modifies b, b.tcbProbes, b.excludedIds
    ensures b.Abs() == Step(b.cfg, old(b.Abs()), op)
    ensures b.unclosed >= old(b.unclosed) && (b.unclosed == old(b.unclosed) ==> b.critical == old(b.critical))
  {
    hide EnableTracing, ExcludeTask, Register, SwitchIn, SwitchOut, GatedLog, Route, ProcessMessages, Raise;
    match op {
      case Enable(caller, ioTask, env) => b.VTraceEnable(caller, ioTask, env);
      case Disable => b.VTraceDisable();
      case Exclude(name) => b.VTraceExcludeTask(name);
      case Create(task, name, priority, env) => b.TraceTaskCreate(task, name, priority, env);
      case SwitchedIn(task, priority, mergeOk, recordOk) => b.TraceTaskSwitchedIn(task, priority, mergeOk, recordOk);
      case SwitchedOut(task, recordOk, snapshotOk) => b.TraceTaskSwitchedOut(task, recordOk, snapshotOk);
      case Hook(task, e, ok) => b.TraceHook(task, e, ok);
      case Deliver(m, to) => b.RouteMessage(m, to);
      case Process(task, ok) => b.VTraceProcessControlPlaneMessages(task, ok);
      case IoFailure(e) => b.PrvTraceError(e);
    }
  }

  method Drive(b: Backend, ops: seq<Op>)
    requires b.Valid()
    modifies b, b.tcbProbes, b.excludedIds
    ensures b.Abs() == RunFrom(b.cfg, old(b.Abs()), ops)
    ensures b.unclosed >= old(b.unclosed) && (b.unclosed == old(b.unclosed) ==> b.critical == old(b.critical))
  {
    hide Step;
    var i := 0;
    while i < |ops|
      invariant i <= |ops|
      invariant b.Abs() == RunFrom(b.cfg, old(b.Abs()), ops[..i])
      invariant b.unclosed >= old(b.unclosed) && (b.unclosed == old(b.unclosed) ==> b.critical == old(b.critical))
    {
      Perform(b, ops[i]);
      assert ops[..i + 1] == ops[..i] + [ops[i]];
      RunFromOne(b.cfg, old(b.Abs()), ops[..i], ops[i]);
      i := i + 1;
    }
    assert ops[..i] == ops;
  }

  /** From start-up on; and without an error the port's critical section ends as it began. */
  method RunBackend(cfg: Config, critical: Critical, ops: seq<Op>) returns (b: Backend)
    ensures fresh(b) && b.cfg == cfg && b.Abs() == Run(cfg, ops)
    ensures Legal(cfg, ops) && b.errorMsg.None? ==> b.critical == critical
  {
    b := new Backend(cfg, critical);
    hide Run, Legal, RunFrom;
    InitIsEmptyRun(cfg);
    RunIsRunFrom(cfg, [], ops);
    assert [] + ops == ops;
    Drive(b, ops);
    if Legal(cfg, ops) {
      SectionsBalance(cfg, ops);
    }
  }

  lemma InitIsEmptyRun(cfg: Config)
    ensures Run(cfg, []) == Init(cfg) && Init(cfg).unclosed == 0
  {
  }
}
