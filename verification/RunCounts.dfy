/** What a whole schedule logs and merges, counted exactly. */
module RunCounts {
  import opened Arithmetic
  import opened Options
  import opened ProbeIdHash
  import opened Trace
  import opened Registry
  import opened Attribution
  import opened Causality
  import opened Logs
  import opened Runs
  import opened Scheduler
  import opened Sequences
  import opened Tracer

  ghost predicate Healthy(cfg: Config, ops: seq<Op>) {
    Legal(cfg, ops) && Run(cfg, ops).enabled && Run(cfg, ops).error.None?
  }

  /** A hook of a task in which every call into the probe library succeeds. */
  predicate Smooth(op: Op) {
    || (op.SwitchedIn? && op.mergeOk && op.recordOk)
    || (op.SwitchedOut? && op.recordOk && op.snapshotOk)
    || (op.Hook? && op.recordOk)
  }

  // ----- Nothing fails -----

  lemma LogSucceeds(s: State, e: Event)
    requires s.current != NULL ==> Traced(s, s.current)
    ensures var t := LogEvent(s, e, true);
            t.enabled == s.enabled && t.error == s.error && t.slots == s.slots && t.current == s.current
  {
    hide FindSlot;
  }

  lemma MergeSucceeds(s: State)
    requires s.current != NULL ==> Traced(s, s.current)
    requires s.previous != NULL ==> Traced(s, s.previous)
    ensures var t := MergeSnapshot(s, true);
            t.enabled == s.enabled && t.error == s.error && t.slots == s.slots && t.current == s.current
  {
    hide FindSlot;
  }

  lemma ProduceSucceeds(s: State)
    requires s.current != NULL ==> Traced(s, s.current)
    ensures var t := ProduceSnapshot(s, true); t.enabled == s.enabled && t.error == s.error
  {
    hide FindSlot;
  }

  /** The remembered tasks have slots, while no error is recorded. */
  lemma RememberedTraced(cfg: Config, s: State, k: Kernel, c: seq<Handle>)
    requires RegistryInv(cfg, s, k) && AttributionInv(s, k, c) && s.error.None?
    ensures s.current != NULL ==> Traced(s, s.current)
    ensures s.previous != NULL ==> Traced(s, s.previous)
  {
    hide Filter, ProbeId, FindSlot, HashName, SlotInv, SlotsInOrder;
  }

  lemma SwitchInSucceeds(cfg: Config, s: State, k: Kernel, c: seq<Handle>, task: Handle, priority: nat)
    requires RegistryInv(cfg, s, k) && AttributionInv(s, k, c) && s.enabled && s.error.None?
    ensures var t := SwitchIn(s, task, priority, true, true); t.enabled && t.error.None?
  {
    RememberedTraced(cfg, s, k, c);
    if Gate(s, task) {
      GatedIsTraced(cfg, s, k, task);
      hide RegistryInv, AttributionInv, LogEvent, MergeSnapshot, FindSlot, Gate;
      var s1 := SwitchedTcb(s, task);
      MergeSucceeds(s1);
      LogSucceeds(if s.current != task then MergeSnapshot(s1, true) else s1, Event(TASK_SWITCHED_IN, Some(priority)));
    }
  }

  lemma NoFailure(cfg: Config, s: State, k: Kernel, c: seq<Handle>, op: Op)
    requires RegistryInv(cfg, s, k) && AttributionInv(s, k, c) && s.enabled && s.error.None? && Smooth(op)
    ensures Step(cfg, s, op).enabled && Step(cfg, s, op).error.None? && Step(cfg, s, op).numbers == s.numbers
  {
    hide RegistryInv, AttributionInv, Gate, LogEvent, ProduceSnapshot, FindSlot;
    StepSame(cfg, s, k, op);
    RememberedTraced(cfg, s, k, c);
    match op
    case SwitchedIn(task, priority, _, _) =>
      SwitchInSucceeds(cfg, s, k, c, task, priority);
      hide SwitchIn;
    case SwitchedOut(_, _, _) =>
      LogSucceeds(s, Event(TASK_SWITCHED_OUT, None));
      ProduceSucceeds(LogEvent(s, Event(TASK_SWITCHED_OUT, None), true));
    case Hook(_, e, _) =>
      LogSucceeds(s, e);
  }

  // ----- One step more -----

  /** `b` continues `a` without error. Meanwhile the traced tasks `ins` are switched in, and `g` has the events `es`. */
  ghost predicate Continues(cfg: Config, a: seq<Op>, b: seq<Op>, g: Handle, ins: seq<Handle>, es: seq<Event>) {
    && Healthy(cfg, b)
    && Run(cfg, b).numbers == Run(cfg, a).numbers
    && KernelRun(b).names == KernelRun(a).names && KernelRun(b).reserved == KernelRun(a).reserved
    && TracedIns(cfg, b) == TracedIns(cfg, a) + ins
    && Project(b, g) == Project(a, g) + es
  }

  lemma ContinuesItself(cfg: Config, ops: seq<Op>, g: Handle)
    requires Healthy(cfg, ops)
    ensures Continues(cfg, ops, ops, g, [], [])
  {
    hide Healthy, Run, KernelRun, TracedIns, Project;
  }

  lemma ContinuesThrough(cfg: Config, a: seq<Op>, b: seq<Op>, c: seq<Op>, g: Handle, ins: seq<Handle>,
                         more: seq<Handle>, d: seq<Event>, e: seq<Event>)
    requires Continues(cfg, a, b, g, ins, d) && Continues(cfg, b, c, g, more, e)
    ensures Continues(cfg, a, c, g, ins + more, d + e)
  {
    hide Healthy, Run, KernelRun, TracedIns, Project;
    assert TracedIns(cfg, a) + ins + more == TracedIns(cfg, a) + (ins + more);
    assert Project(a, g) + d + e == Project(a, g) + (d + e);
  }

  lemma OneMoreStep(cfg: Config, ops: seq<Op>, op: Op, g: Handle)
    requires Healthy(cfg, ops) && Smooth(op) && Allowed(cfg, KernelRun(ops), op)
    ensures Continues(cfg, ops, ops + [op], g,
                      if op.SwitchedIn? && Gate(Run(cfg, ops), op.task) then [op.task] else [],
                      OwnEvents(KernelRun(ops), op, g))
    ensures KernelRun(ops + [op]) == KernelStep(KernelRun(ops), op)
  {
    OneStepUnfolds(cfg, ops, op, g);
    hide RegistryInv, AttributionInv, Gate, Step, Allowed, OwnEvents, Run, KernelRun, Legal, TracedIns, Project;
    ReachableRegistry(cfg, ops);
    ReachableAttribution(cfg, ops);
    NoFailure(cfg, Run(cfg, ops), KernelRun(ops), Chain(cfg, ops), op);
    KeepsNames(KernelRun(ops), op);
  }

  lemma OneStepUnfolds(cfg: Config, ops: seq<Op>, op: Op, g: Handle)
    ensures var more, s, k := ops + [op], Run(cfg, ops), KernelRun(ops);
            && (Legal(cfg, ops) && Allowed(cfg, k, op) ==> Legal(cfg, more))
            && Run(cfg, more) == Step(cfg, s, op) && KernelRun(more) == KernelStep(k, op)
            && TracedIns(cfg, more) ==
               TracedIns(cfg, ops) + (if op.SwitchedIn? && Gate(s, op.task) then [op.task] else [])
            && Project(more, g) == Project(ops, g) + OwnEvents(k, op, g)
  {
    assert (ops + [op])[..|ops|] == ops;
    hide Gate, Step, KernelStep, Allowed, OwnEvents;
  }

  lemma KeepsNames(k: Kernel, op: Op)
    requires Smooth(op)
    ensures KernelStep(k, op).names == k.names && KernelStep(k, op).reserved == k.reserved
  {
  }

  // ----- A turn -----

  /** The events of one turn of a task. */
  function TurnEvents(cfg: Config, t: Tcb, iters: nat): seq<Event> {
    if t.number == 0 then []
    else
      [Event(TASK_SWITCHED_IN, Some(t.priority))] + Times(Body(cfg, t), iters) + [Event(TASK_SWITCHED_OUT, None)]
  }

  lemma NowHealthy(cfg: Config, a: seq<Op>, b: seq<Op>, g: Handle, ins: seq<Handle>, es: seq<Event>)
    requires Continues(cfg, a, b, g, ins, es)
    ensures Healthy(cfg, b) && Run(cfg, b).numbers == Run(cfg, a).numbers
    ensures KernelRun(b).names == KernelRun(a).names && KernelRun(b).reserved == KernelRun(a).reserved
    ensures forall h :: Gate(Run(cfg, b), h) == Gate(Run(cfg, a), h)
  {
    hide Healthy, Run, KernelRun, TracedIns, Project, Gate;
    forall h
      ensures Gate(Run(cfg, b), h) == Gate(Run(cfg, a), h)
    {
      SameNumbers(Run(cfg, a), Run(cfg, b), h);
      GateIsFilter(Run(cfg, a), h);
      GateIsFilter(Run(cfg, b), h);
    }
  }

  lemma {:induction false} HooksContinue(cfg: Config, ops: seq<Op>, h: Handle, es: seq<Event>, g: Handle)
    requires Healthy(cfg, ops) && KernelRun(ops).running == h != NULL && KernelRun(ops).started
    ensures Continues(cfg, ops, ops + Hooks(h, es), g, [], Only(g == h, es))
    ensures KernelRun(ops + Hooks(h, es)) == KernelRun(ops)
  {
    hide Healthy, Run, KernelRun, Gate, Continues;
    if es == [] {
      assert ops + Hooks(h, es) == ops;
      ContinuesItself(cfg, ops, g);
    } else {
      var front, e := es[..|es| - 1], es[|es| - 1];
      var done := ops + Hooks(h, front);
      HooksContinue(cfg, ops, h, front, g);
      Assoc(ops, Hooks(h, front), [Hook(h, e, true)]);
      assert front + [e] == es;
      NowHealthy(cfg, ops, done, g, [], Only(g == h, front));
      OneMoreStep(cfg, done, Hook(h, e, true), g);
      ContinuesThrough(cfg, ops, done, done + [Hook(h, e, true)], g, [], [], Only(g == h, front), Only(g == h, [e]));
      NoneAndNone<Handle>();
      NoneAndNone<Event>();
    }
  }

  lemma {:induction false} CallsContinue(cfg: Config, ops: seq<Op>, h: Handle, body: seq<Event>, iters: nat, g: Handle)
    requires Healthy(cfg, ops) && KernelRun(ops).running == h != NULL && KernelRun(ops).started
    ensures Continues(cfg, ops, ops + Calls(h, body, iters), g, [], Only(g == h, Times(body, iters)))
    ensures KernelRun(ops + Calls(h, body, iters)) == KernelRun(ops)
  {
    hide Healthy, Run, KernelRun, Hooks, Continues, Gate;
    if iters == 0 {
      assert ops + Calls(h, body, 0) == ops;
      ContinuesItself(cfg, ops, g);
    } else {
      var done := ops + Calls(h, body, iters - 1);
      CallsContinue(cfg, ops, h, body, iters - 1, g);
      Assoc(ops, Calls(h, body, iters - 1), Hooks(h, body));
      NowHealthy(cfg, ops, done, g, [], Only(g == h, Times(body, iters - 1)));
      HooksContinue(cfg, done, h, body, g);
      ContinuesThrough(cfg, ops, done, done + Hooks(h, body), g, [], [], Only(g == h, Times(body, iters - 1)),
                       Only(g == h, body));
      NoneAndNone<Handle>();
      NoneAndNone<Event>();
    }
  }

  /** The kernel knows the task, and no task is running. */
  ghost predicate CanRun(k: Kernel, h: Handle) {
    k.running == NULL && h != NULL && (h in k.names || h in k.reserved)
  }

  lemma TurnSteps(cfg: Config, ops: seq<Op>, t: Tcb, iters: nat)
    requires t.number != 0
    ensures ops + [SwitchedIn(t.handle, t.priority, true, true)] + Calls(t.handle, Body(cfg, t), iters)
            + [SwitchedOut(t.handle, true, true)] == ops + Turn(cfg, t, iters)
  {
    hide Calls, Body;
  }

  lemma TurnEventsSplit(cfg: Config, t: Tcb, iters: nat, mine: bool)
    requires t.number != 0
    ensures Only(mine, [Event(TASK_SWITCHED_IN, Some(t.priority))]) + Only(mine, Times(Body(cfg, t), iters))
            + Only(mine, [Event(TASK_SWITCHED_OUT, None)]) == Only(mine, TurnEvents(cfg, t, iters))
  {
    hide Times, Body;
  }

  lemma TurnContinues(cfg: Config, ops: seq<Op>, t: Tcb, iters: nat, g: Handle)
    requires Healthy(cfg, ops) && t.number != 0 && CanRun(KernelRun(ops), t.handle)
    ensures Continues(cfg, ops, ops + Turn(cfg, t, iters), g, Only(Gate(Run(cfg, ops), t.handle), [t.handle]),
                      Only(g == t.handle, TurnEvents(cfg, t, iters)))
    ensures KernelRun(ops + Turn(cfg, t, iters)).running == NULL
  {
    hide Healthy, Run, KernelRun, Gate, Calls, Turn, TurnEvents, Body, Times, Hooks, Continues;
    var h, body := t.handle, Body(cfg, t);
    var ops1 := ops + [SwitchedIn(h, t.priority, true, true)];
    var ops2 := ops1 + Calls(h, body, iters);
    var mine, ins := g == h, Only(Gate(Run(cfg, ops), h), [h]);
    var in1, out1 := [Event(TASK_SWITCHED_IN, Some(t.priority))], [Event(TASK_SWITCHED_OUT, None)];
    InContinues(cfg, ops, h, t.priority, g);
    NowHealthy(cfg, ops, ops1, g, ins, Only(mine, in1));
    CallsContinue(cfg, ops1, h, body, iters, g);
    NowHealthy(cfg, ops1, ops2, g, [], Only(mine, Times(body, iters)));
    OutContinues(cfg, ops2, h, g);
    ContinuesThrough(cfg, ops, ops1, ops2, g, ins, [], Only(mine, in1), Only(mine, Times(body, iters)));
    ContinuesThrough(cfg, ops, ops2, ops2 + [SwitchedOut(h, true, true)], g, ins + [], [],
                     Only(mine, in1) + Only(mine, Times(body, iters)), Only(mine, out1));
    assert ins + [] + [] == ins;
    TurnSteps(cfg, ops, t, iters);
    TurnEventsSplit(cfg, t, iters, mine);
  }

  lemma InContinues(cfg: Config, ops: seq<Op>, h: Handle, priority: nat, g: Handle)
    requires Healthy(cfg, ops) && CanRun(KernelRun(ops), h)
    ensures var more := ops + [SwitchedIn(h, priority, true, true)];
            && Continues(cfg, ops, more, g, Only(Gate(Run(cfg, ops), h), [h]),
                         Only(g == h, [Event(TASK_SWITCHED_IN, Some(priority))]))
            && KernelRun(more).running == h && KernelRun(more).started
  {
    hide Healthy, Run, KernelRun, Gate, Continues;
    OneMoreStep(cfg, ops, SwitchedIn(h, priority, true, true), g);
  }

  lemma OutContinues(cfg: Config, ops: seq<Op>, h: Handle, g: Handle)
    requires Healthy(cfg, ops) && KernelRun(ops).running == h != NULL
    ensures var more := ops + [SwitchedOut(h, true, true)];
            && Continues(cfg, ops, more, g, [], Only(g == h, [Event(TASK_SWITCHED_OUT, None)]))
            && KernelRun(more).running == NULL
  {
    hide Healthy, Run, KernelRun, Gate, Continues;
    OneMoreStep(cfg, ops, SwitchedOut(h, true, true), g);
  }

  // ----- Rounds -----

  /** The entries in use name different tasks, all known to the kernel. */
  ghost predicate Table(k: Kernel, tcbs: seq<Tcb>) {
    && (forall i :: 0 <= i < |tcbs| && tcbs[i].number != 0 ==>
          tcbs[i].handle != NULL && (tcbs[i].handle in k.names || tcbs[i].handle in k.reserved))
    && (forall i, j :: 0 <= i < j < |tcbs| && tcbs[i].number != 0 && tcbs[j].number != 0 ==>
          tcbs[i].handle != tcbs[j].handle)
  }

  /** The traced tasks among the first `n` entries. */
  ghost function TracedAmong(s: State, tcbs: seq<Tcb>, n: nat): seq<Handle>
    requires n <= |tcbs|
  {
    if n == 0 then []
    else
      TracedAmong(s, tcbs, n - 1)
      + Only(tcbs[n - 1].number != 0 && Gate(s, tcbs[n - 1].handle), [tcbs[n - 1].handle])
  }

  /** The events of task `g` in a round. */
  ghost function RoundEvents(cfg: Config, tcbs: seq<Tcb>, iters: nat, n: nat, g: Handle): seq<Event>
    requires n <= |tcbs|
  {
    if n == 0 then []
    else
      RoundEvents(cfg, tcbs, iters, n - 1, g)
      + Only(tcbs[n - 1].number != 0 && g == tcbs[n - 1].handle, TurnEvents(cfg, tcbs[n - 1], iters))
  }

  lemma SameEntries(k: Kernel, l: Kernel, tcbs: seq<Tcb>)
    requires Table(k, tcbs) && l.names == k.names && l.reserved == k.reserved
    ensures Table(l, tcbs)
  {
  }

  lemma {:induction false} SameTraced(s: State, t: State, tcbs: seq<Tcb>, n: nat)
    requires n <= |tcbs| && forall h :: Gate(t, h) == Gate(s, h)
    ensures TracedAmong(t, tcbs, n) == TracedAmong(s, tcbs, n)
  {
    hide Gate;
    if n > 0 {
      SameTraced(s, t, tcbs, n - 1);
    }
  }

  lemma {:induction false} RoundContinues(cfg: Config, ops: seq<Op>, tcbs: seq<Tcb>, iters: nat, n: nat, g: Handle)
    requires n <= |tcbs| && Healthy(cfg, ops) && Table(KernelRun(ops), tcbs) && KernelRun(ops).running == NULL
    ensures Continues(cfg, ops, ops + Round(cfg, tcbs, iters, n), g, TracedAmong(Run(cfg, ops), tcbs, n),
                      RoundEvents(cfg, tcbs, iters, n, g))
    ensures KernelRun(ops + Round(cfg, tcbs, iters, n)).running == NULL
  {
    hide Healthy, Run, KernelRun, Gate, Turn, TurnEvents, Continues;
    if n == 0 {
      assert ops + Round(cfg, tcbs, iters, 0) == ops;
      ContinuesItself(cfg, ops, g);
    } else {
      var t, done := tcbs[n - 1], ops + Round(cfg, tcbs, iters, n - 1);
      var ins, es := TracedAmong(Run(cfg, ops), tcbs, n - 1), RoundEvents(cfg, tcbs, iters, n - 1, g);
      RoundContinues(cfg, ops, tcbs, iters, n - 1, g);
      Assoc(ops, Round(cfg, tcbs, iters, n - 1), Turn(cfg, t, iters));
      NowHealthy(cfg, ops, done, g, ins, es);
      if t.number != 0 {
        TurnContinues(cfg, done, t, iters, g);
      } else {
        NoTurn(cfg, t, iters);
        assert done + [] == done;
        ContinuesItself(cfg, done, g);
      }
      ContinuesThrough(cfg, ops, done, done + Turn(cfg, t, iters), g, ins,
                       Only(t.number != 0 && Gate(Run(cfg, ops), t.handle), [t.handle]),
                       es, Only(t.number != 0 && g == t.handle, TurnEvents(cfg, t, iters)));
    }
  }

  lemma {:induction false} ScheduleContinues(cfg: Config, ops: seq<Op>, tcbs: seq<Tcb>, iters: nat, rounds: nat,
                                             g: Handle)
    requires Healthy(cfg, ops) && Table(KernelRun(ops), tcbs) && KernelRun(ops).running == NULL
    ensures Continues(cfg, ops, ops + Schedule(cfg, tcbs, iters, rounds), g,
                      Times(TracedAmong(Run(cfg, ops), tcbs, |tcbs|), rounds),
                      Times(RoundEvents(cfg, tcbs, iters, |tcbs|, g), rounds))
    ensures KernelRun(ops + Schedule(cfg, tcbs, iters, rounds)).running == NULL
  {
    hide Healthy, Run, KernelRun, Gate, Round, TracedAmong, RoundEvents, Continues, Table;
    if rounds == 0 {
      assert ops + Schedule(cfg, tcbs, iters, 0) == ops;
      ContinuesItself(cfg, ops, g);
    } else {
      var done, round := ops + Schedule(cfg, tcbs, iters, rounds - 1), Round(cfg, tcbs, iters, |tcbs|);
      var ins, es := TracedAmong(Run(cfg, ops), tcbs, |tcbs|), RoundEvents(cfg, tcbs, iters, |tcbs|, g);
      ScheduleContinues(cfg, ops, tcbs, iters, rounds - 1, g);
      Assoc(ops, Schedule(cfg, tcbs, iters, rounds - 1), round);
      NowHealthy(cfg, ops, done, g, Times(ins, rounds - 1), Times(es, rounds - 1));
      SameEntries(KernelRun(ops), KernelRun(done), tcbs);
      SameTraced(Run(cfg, ops), Run(cfg, done), tcbs, |tcbs|);
      RoundContinues(cfg, done, tcbs, iters, |tcbs|, g);
      ContinuesThrough(cfg, ops, done, done + round, g, Times(ins, rounds - 1), ins, Times(es, rounds - 1), es);
    }
  }

  // ----- The hand-overs of a schedule -----

  ghost predicate Distinct(hs: seq<Handle>) {
    forall i, j :: 0 <= i < j < |hs| ==> hs[i] != hs[j]
  }

  lemma {:induction false} TracedDistinct(k: Kernel, s: State, tcbs: seq<Tcb>, n: nat)
    requires n <= |tcbs| && Table(k, tcbs)
    ensures Distinct(TracedAmong(s, tcbs, n))
    ensures forall h :: h in TracedAmong(s, tcbs, n) ==>
              exists i :: 0 <= i < n && tcbs[i].number != 0 && tcbs[i].handle == h
  {
    hide Gate;
    if n > 0 {
      TracedDistinct(k, s, tcbs, n - 1);
      var front, last := TracedAmong(s, tcbs, n - 1), tcbs[n - 1];
      assert last.number != 0 ==> last.handle !in front;
      assert TracedAmong(s, tcbs, n) == front || (last.number != 0 && TracedAmong(s, tcbs, n) == front + [last.handle]);
      forall h | h in TracedAmong(s, tcbs, n)
        ensures exists i :: 0 <= i < n && tcbs[i].number != 0 && tcbs[i].handle == h
      {
        if h !in TracedAmong(s, tcbs, n - 1) {
          assert tcbs[n - 1].number != 0 && tcbs[n - 1].handle == h;
        } else {
          var i :| 0 <= i < n - 1 && tcbs[i].number != 0 && tcbs[i].handle == h;
        }
      }
    }
  }

  lemma {:induction false} CollapseSteady(hs: seq<Handle>)
    requires forall i :: 0 < i < |hs| ==> hs[i - 1] != hs[i]
    ensures Collapse(hs) == hs
  {
    if hs != [] {
      CollapseSteady(hs[..|hs| - 1]);
    }
  }

  lemma {:induction false} CollapseOne(h: Handle, r: nat)
    requires r > 0
    ensures Collapse(Times([h], r)) == [h]
  {
    var front := Times([h], r - 1);
    assert (front + [h])[..|front|] == front;
    if r > 1 {
      CollapseOne(h, r - 1);
    }
  }

  lemma TimesSteady(hs: seq<Handle>, r: nat)
    requires |hs| >= 2 && Distinct(hs)
    ensures forall i :: 0 < i < |Times(hs, r)| ==> Times(hs, r)[i - 1] != Times(hs, r)[i]
  {
    var all := Times(hs, r);
    forall i | 0 < i < |all|
      ensures all[i - 1] != all[i]
    {
      TimesNth(hs, r, i - 1);
      TimesNth(hs, r, i);
      ModNext(i - 1, |hs|);
      hide Times;
    }
  }

  /** The chain of hand-overs when the tasks `hs` take turns. */
  lemma CollapseTimes(hs: seq<Handle>, r: nat)
    requires Distinct(hs)
    ensures Collapse(Times(hs, r)) == if |hs| >= 2 then Times(hs, r) else if r > 0 then hs else []
  {
    if |hs| >= 2 {
      TimesSteady(hs, r);
      CollapseSteady(Times(hs, r));
      hide *;
    } else if |hs| == 1 && r > 0 {
      CollapseOne(hs[0], r);
      hide Times, Collapse;
      assert hs == [hs[0]];
    } else {
      TimesLength(hs, r);
      assert |hs| * r == 0;
      hide Times;
    }
  }

  // ----- The theorems -----

  /** Before the scheduler starts a task has no event but its creation. */
  lemma {:induction false} BeforeStart(cfg: Config, ops: seq<Op>, h: Handle)
    requires Legal(cfg, ops) && !KernelRun(ops).started && h != NULL
    ensures KernelRun(ops).running == NULL && NULL !in KernelRun(ops).names
    ensures if h in KernelRun(ops).names then |Project(ops, h)| == 1 && Project(ops, h)[0].id == TASK_CREATE
            else Project(ops, h) == []
  {
    if ops == [] {
    } else {
      var front, op := ops[..|ops| - 1], ops[|ops| - 1];
      assert Project(ops, h) == Project(front, h) + OwnEvents(KernelRun(front), op, h);
      LastStep(cfg, ops);
      hide *;
      StillNotStarted(KernelRun(front), op);
      BeforeStart(cfg, front, h);
      OneCreationOnly(cfg, KernelRun(front), op, Project(front, h), h);
    }
  }

  lemma StillNotStarted(k: Kernel, op: Op)
    requires !KernelStep(k, op).started
    ensures !k.started && !op.SwitchedIn?
  {
  }

  lemma OneCreationOnly(cfg: Config, k: Kernel, op: Op, es: seq<Event>, h: Handle)
    requires Allowed(cfg, k, op) && !op.SwitchedIn? && k.running == NULL && h != NULL && NULL !in k.names
    requires if h in k.names then |es| == 1 && es[0].id == TASK_CREATE else es == []
    ensures var l, all := KernelStep(k, op), es + OwnEvents(k, op, h);
            && l.running == NULL && NULL !in l.names
            && if h in l.names then |all| == 1 && all[0].id == TASK_CREATE else all == []
  {
  }

  lemma NothingIn(cfg: Config, ops: seq<Op>)
    requires Legal(cfg, ops) && !KernelRun(ops).started
    ensures TracedIns(cfg, ops) == []
  {
    hide Run, KernelRun, Legal, TracedIns, Gate, Filter;
    CollapseEmpty(TracedIns(cfg, ops));
    ReachableAttribution(cfg, ops);
  }

  lemma CollapseEmpty(hs: seq<Handle>)
    ensures Collapse(hs) == [] ==> hs == []
  {
  }

  /** How often an event is in a log. */
  function Count(es: seq<Event>, id: nat): nat {
    if es == [] then 0 else Count(es[..|es| - 1], id) + if es[|es| - 1].id == id then 1 else 0
  }

  lemma {:induction false} CountAppend(a: seq<Event>, b: seq<Event>, id: nat)
    ensures Count(a + b, id) == Count(a, id) + Count(b, id)
  {
    if b == [] {
      assert a + b == a;
    } else {
      assert (a + b)[..|a + b| - 1] == a + b[..|b| - 1];
      CountAppend(a, b[..|b| - 1], id);
    }
  }

  lemma {:induction false} CountTimes(es: seq<Event>, n: nat, id: nat)
    ensures Count(Times(es, n), id) == Count(es, id) * n
  {
    if n > 0 {
      CountTimes(es, n - 1, id);
      CountAppend(Times(es, n - 1), es, id);
      assert Count(es, id) * n == Count(es, id) * (n - 1) + Count(es, id);
    }
  }

  lemma CountTurn(cfg: Config, t: Tcb, iters: nat, id: nat)
    requires t.number != 0 && (id == TASK_SWITCHED_IN || id == TASK_SWITCHED_OUT) && Count(Body(cfg, t), id) == 0
    ensures Count(TurnEvents(cfg, t, iters), id) == 1
  {
    var a, c := [Event(TASK_SWITCHED_IN, Some(t.priority))], [Event(TASK_SWITCHED_OUT, None)];
    var b := Times(Body(cfg, t), iters);
    CountAppend(a + b, c, id);
    CountAppend(a, b, id);
    CountTimes(Body(cfg, t), iters, id);
    assert a[..0] == [] && c[..0] == [];
  }

  lemma OnlyEntry(k: Kernel, tcbs: seq<Tcb>, j: nat, i: nat)
    requires j < |tcbs| && i < |tcbs| && Table(k, tcbs) && tcbs[i].number != 0
    ensures tcbs[j].number != 0 && tcbs[i].handle == tcbs[j].handle <==> i == j
  {
  }

  lemma {:induction false} OwnRound(cfg: Config, k: Kernel, tcbs: seq<Tcb>, iters: nat, n: nat, i: nat)
    requires n <= |tcbs| && i < |tcbs| && Table(k, tcbs) && tcbs[i].number != 0
    ensures RoundEvents(cfg, tcbs, iters, n, tcbs[i].handle) == if i < n then TurnEvents(cfg, tcbs[i], iters) else []
  {
    hide TurnEvents, Table;
    if n > 0 {
      OwnRound(cfg, k, tcbs, iters, n - 1, i);
      OnlyEntry(k, tcbs, n - 1, i);
    }
  }

  /**
   * The log of the task of `t`: its creation, and then once a round its switch in, the events of its function
   * as often as that is called, and its switch out. The IO task's function is not called.
   */
  ghost predicate LoggedTurns(cfg: Config, s: State, t: Tcb, iters: nat, rounds: nat) {
    var p := ProbeOf(s, t.handle);
    var isIoTask := cfg.includeIoTask && Cut(t.name, cfg.maxNameLength) == Cut(cfg.ioTaskName, cfg.maxNameLength);
    var calls := if t.code.Some? && !isIoTask then Times(t.code.value, iters) else [];
    var turn := [Event(TASK_SWITCHED_IN, Some(t.priority))] + calls + [Event(TASK_SWITCHED_OUT, None)];
    && p.Some? && p.value < |s.probes|
    && exists e: Event :: e.id == TASK_CREATE && s.probes[p.value].log == [e] + Times(turn, rounds)
  }

  lemma {:induction false} TimesNothing(n: nat)
    ensures var none: seq<Event> := []; Times(none, n) == none
  {
    if n > 0 {
      TimesNothing(n - 1);
    }
  }

  lemma TurnIs(cfg: Config, t: Tcb, iters: nat)
    requires t.number != 0
    ensures TurnEvents(cfg, t, iters) ==
            [Event(TASK_SWITCHED_IN, Some(t.priority))]
            + (if t.code.Some? && !(cfg.includeIoTask
                                    && Cut(t.name, cfg.maxNameLength) == Cut(cfg.ioTaskName, cfg.maxNameLength))
               then Times(t.code.value, iters) else [])
            + [Event(TASK_SWITCHED_OUT, None)]
  {
    TimesNothing(iters);
    hide Times;
  }

  /**
   * The merges when the tasks `hs` take turns: none with fewer than two of them; otherwise one for every turn but
   * the first, each from one task to the next, round and round.
   */
  ghost predicate MergedInTurn(s: State, hs: seq<Handle>, rounds: nat) {
    && |s.merges| == (if |hs| < 2 || rounds == 0 then 0 else |hs| * rounds - 1)
    && forall i :: 0 <= i < |s.merges| ==>
         && s.merges[i].snapshot.Snapshot?
         && ProbeOf(s, hs[i % |hs|]) == Some(s.merges[i].snapshot.origin)
         && ProbeOf(s, hs[(i + 1) % |hs|]) == Some(s.merges[i].into)
  }

  /**
   * After any number of rounds over any table of tasks, traced or not, started without error, there is no error,
   * and the log of each traced task is its creation and then, once a round, its switch in, the events of its calls,
   * and its switch out.
   */
  lemma LogAfterSchedule(cfg: Config, boot: seq<Op>, tcbs: seq<Tcb>, iters: nat, rounds: nat, i: nat)
    requires Healthy(cfg, boot) && !KernelRun(boot).started && Table(KernelRun(boot), tcbs)
    requires i < |tcbs| && tcbs[i].number != 0 && Gate(Run(cfg, boot), tcbs[i].handle)
    ensures var ops := boot + Schedule(cfg, tcbs, iters, rounds);
            Healthy(cfg, ops) && LoggedTurns(cfg, Run(cfg, ops), tcbs[i], iters, rounds)
  {
    hide Healthy, Run, KernelRun, Gate, Schedule, TurnEvents, Project, Table, Times, ProbeOf;
    var h, ops := tcbs[i].handle, boot + Schedule(cfg, tcbs, iters, rounds);
    OwnTurns(cfg, boot, tcbs, iters, rounds, i);
    ProjectedLog(cfg, ops, h);
    ProjectedLog(cfg, boot, h);
    HealthyIsLegal(cfg, boot);
    BeforeStart(cfg, boot, h);
    TurnIs(cfg, tcbs[i], iters);
    var es := Project(boot, h);
    assert es == [es[0]];
  }

  lemma OwnTurns(cfg: Config, boot: seq<Op>, tcbs: seq<Tcb>, iters: nat, rounds: nat, i: nat)
    requires Healthy(cfg, boot) && !KernelRun(boot).started && Table(KernelRun(boot), tcbs)
    requires i < |tcbs| && tcbs[i].number != 0 && Gate(Run(cfg, boot), tcbs[i].handle)
    ensures var h, ops := tcbs[i].handle, boot + Schedule(cfg, tcbs, iters, rounds);
            && Healthy(cfg, ops) && Gate(Run(cfg, ops), h)
            && Project(ops, h) == Project(boot, h) + Times(TurnEvents(cfg, tcbs[i], iters), rounds)
  {
    var h, ops := tcbs[i].handle, boot + Schedule(cfg, tcbs, iters, rounds);
    var ins := Times(TracedAmong(Run(cfg, boot), tcbs, |tcbs|), rounds);
    var turns := Times(TurnEvents(cfg, tcbs[i], iters), rounds);
    hide Healthy, Run, KernelRun, Gate, Schedule, TurnEvents, Project, Table, Times, TracedAmong, RoundEvents,
         TracedIns;
    HealthyIsLegal(cfg, boot);
    assert KernelRun(boot).running == NULL by {
      BeforeStart(cfg, boot, 1);
    }
    ScheduleContinues(cfg, boot, tcbs, iters, rounds, h);
    OwnRound(cfg, KernelRun(boot), tcbs, iters, |tcbs|, i);
    NowHealthy(cfg, boot, ops, h, ins, turns);
  }

  lemma ProjectedLog(cfg: Config, ops: seq<Op>, h: Handle)
    requires Healthy(cfg, ops) && Gate(Run(cfg, ops), h)
    ensures var s := Run(cfg, ops);
            var p := ProbeOf(s, h);
            && h != NULL && h in KernelRun(ops).names
            && p.Some? && p.value < |s.probes| && s.probes[p.value].log == Project(ops, h)
  {
    HealthyIsLegal(cfg, ops);
    hide Healthy, Run, KernelRun, Gate, Project, Legal, RegistryInv, FindSlot;
    ReachableRegistry(cfg, ops);
    GatedIsTraced(cfg, Run(cfg, ops), KernelRun(ops), h);
    LogIsProjection(cfg, ops, h);
    TracedIsKnown(cfg, Run(cfg, ops), KernelRun(ops), h);
  }

  lemma TracedIsKnown(cfg: Config, s: State, k: Kernel, h: Handle)
    requires RegistryInv(cfg, s, k) && Traced(s, h)
    ensures h in k.names
  {
    hide Filter, ProbeId, FindSlotFrom, HashName;
    assert SlotInv(s, k, SlotOf(s, h));
  }

  lemma HealthyIsLegal(cfg: Config, ops: seq<Op>)
    requires Healthy(cfg, ops)
    ensures Legal(cfg, ops) && Good(Run(cfg, ops), KernelRun(ops)) && Run(cfg, ops).error.None?
  {
    hide Run, KernelRun, Legal;
  }

  /** The merges of a schedule are those of its traced tasks, in the order of the table, taking turns. */
  lemma MergesOfSchedule(cfg: Config, boot: seq<Op>, tcbs: seq<Tcb>, iters: nat, rounds: nat)
    requires Healthy(cfg, boot) && !KernelRun(boot).started && Table(KernelRun(boot), tcbs)
    ensures MergedInTurn(Run(cfg, boot + Schedule(cfg, tcbs, iters, rounds)),
                         TracedAmong(Run(cfg, boot), tcbs, |tcbs|), rounds)
  {
    hide Healthy, Run, KernelRun, Gate, Schedule, Table, TracedAmong, Chain, Times, ProbeOf;
    var ops, hs := boot + Schedule(cfg, tcbs, iters, rounds), TracedAmong(Run(cfg, boot), tcbs, |tcbs|);
    ChainOfSchedule(cfg, boot, tcbs, iters, rounds);
    HealthyIsLegal(cfg, ops);
    MergesAreHandOvers(cfg, ops);
    TimesLength(hs, rounds);
    TurnsOfTimes(hs, rounds, Chain(cfg, ops));
  }

  lemma TurnsOfTimes(hs: seq<Handle>, rounds: nat, c: seq<Handle>)
    requires c == if |hs| >= 2 then Times(hs, rounds) else if rounds > 0 then hs else []
    ensures |hs| < 2 || rounds == 0 ==> |c| < 2
    ensures |hs| >= 2 ==> |c| == |hs| * rounds && (rounds > 0 ==> c != [])
    ensures |hs| >= 2 ==> forall i :: 0 <= i < |c| ==> c[i] == hs[i % |hs|]
  {
    TimesLength(hs, rounds);
    if |hs| >= 2 {
      if rounds > 0 {
        MulMonotone(|hs|, 1, rounds);
      }
      forall i | 0 <= i < |c|
        ensures c[i] == hs[i % |hs|]
      {
        TimesNth(hs, rounds, i);
      }
    }
  }

  lemma ChainOfSchedule(cfg: Config, boot: seq<Op>, tcbs: seq<Tcb>, iters: nat, rounds: nat)
    requires Healthy(cfg, boot) && !KernelRun(boot).started && Table(KernelRun(boot), tcbs)
    ensures var ops, hs := boot + Schedule(cfg, tcbs, iters, rounds), TracedAmong(Run(cfg, boot), tcbs, |tcbs|);
            && Healthy(cfg, ops)
            && Chain(cfg, ops) == if |hs| >= 2 then Times(hs, rounds) else if rounds > 0 then hs else []
  {
    var ops, hs := boot + Schedule(cfg, tcbs, iters, rounds), TracedAmong(Run(cfg, boot), tcbs, |tcbs|);
    hide Healthy, Run, KernelRun, Gate, Schedule, Project, Table, Times, TracedAmong, RoundEvents, TracedIns,
         Collapse, Distinct;
    HealthyIsLegal(cfg, boot);
    BeforeStart(cfg, boot, 1);
    NothingIn(cfg, boot);
    ScheduleContinues(cfg, boot, tcbs, iters, rounds, NULL);
    assert [] + Times(hs, rounds) == Times(hs, rounds);
    TracedDistinct(KernelRun(boot), Run(cfg, boot), tcbs, |tcbs|);
    CollapseTimes(hs, rounds);
  }

  /** Each traced task is logged as switched in, and as switched out, exactly once a round. */
  lemma SwitchesOfSchedule(cfg: Config, boot: seq<Op>, tcbs: seq<Tcb>, iters: nat, rounds: nat, i: nat, id: nat)
    requires Healthy(cfg, boot) && !KernelRun(boot).started && Table(KernelRun(boot), tcbs)
    requires i < |tcbs| && tcbs[i].number != 0 && Gate(Run(cfg, boot), tcbs[i].handle)
    requires (id == TASK_SWITCHED_IN || id == TASK_SWITCHED_OUT) && Count(Body(cfg, tcbs[i]), id) == 0
    ensures var s := Run(cfg, boot + Schedule(cfg, tcbs, iters, rounds));
            var p := ProbeOf(s, tcbs[i].handle);
            p.Some? && p.value < |s.probes| && Count(s.probes[p.value].log, id) == rounds
  {
    hide Healthy, Run, KernelRun, Gate, Schedule, Table, TurnEvents, Times, ProbeOf;
    LogAfterSchedule(cfg, boot, tcbs, iters, rounds, i);
    TurnIs(cfg, tcbs[i], iters);
    var s := Run(cfg, boot + Schedule(cfg, tcbs, iters, rounds));
    var turn := TurnEvents(cfg, tcbs[i], iters);
    var e: Event :| e.id == TASK_CREATE && s.probes[ProbeOf(s, tcbs[i].handle).value].log == [e] + Times(turn, rounds);
    CountAppend([e], Times(turn, rounds), id);
    CountTimes(turn, rounds, id);
    CountTurn(cfg, tcbs[i], iters, id);
    assert [e][..0] == [];
  }

  /**
   * `vTaskStartScheduler` on a backend that came up without error, from the run `boot`: tracing is still on without
   * error, the critical section is as it was, and the logs and merges are exactly those of the tasks taking turns.
   */
  method StartTracedScheduler(b: Backend, ghost boot: seq<Op>, tcbs: seq<Tcb>, iters: nat, rounds: nat)
    requires b.Valid() && b.Abs() == Run(b.cfg, boot)
    requires Healthy(b.cfg, boot) && !KernelRun(boot).started && Table(KernelRun(boot), tcbs)
    modifies b, b.tcbProbes
    ensures b.Abs() == Run(b.cfg, boot + Schedule(b.cfg, tcbs, iters, rounds))
    ensures b.isEnabled && b.errorMsg.None? && b.critical == old(b.critical)
    ensures MergedInTurn(b.Abs(), TracedAmong(old(b.Abs()), tcbs, |tcbs|), rounds)
    ensures forall i :: 0 <= i < |tcbs| && tcbs[i].number != 0 && Gate(old(b.Abs()), tcbs[i].handle) ==>
              LoggedTurns(b.cfg, b.Abs(), tcbs[i], iters, rounds)
  {
    hide Run, KernelRun, Gate, Schedule, Table, TracedAmong, LoggedTurns, MergedInTurn, RunFrom, Legal;
    StartScheduler(b, tcbs, iters, rounds);
    RunIsRunFrom(b.cfg, boot, Schedule(b.cfg, tcbs, iters, rounds));
    ChainOfSchedule(b.cfg, boot, tcbs, iters, rounds);
    MergesOfSchedule(b.cfg, boot, tcbs, iters, rounds);
    forall i | 0 <= i < |tcbs| && tcbs[i].number != 0 && Gate(Run(b.cfg, boot), tcbs[i].handle)
      ensures LoggedTurns(b.cfg, b.Abs(), tcbs[i], iters, rounds)
    {
      LogAfterSchedule(b.cfg, boot, tcbs, iters, rounds, i);
    }
  }
}
