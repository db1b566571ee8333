/** The mock scheduler: every task in the order it was created, a number of times over. */
module Scheduler {
  import opened Options
  import opened ProbeIdHash
  import opened Trace
  import opened Runs
  import opened Tracer

  /** An entry of the scheduler's table; one numbered 0 is not in use. `code` is the hooks the task's function runs. */
  datatype Tcb = Tcb(number: nat, handle: Handle, priority: nat, name: Bytes, code: Option<seq<Event>>)

  function Cut(name: Bytes, n: nat): Bytes {
    if |name| <= n then name else name[..n]
  }

  /** The entry's name is that of the IO task, as far as the kernel keeps names. */
  predicate NamedAsIoTask(cfg: Config, t: Tcb) {
    cfg.includeIoTask && Cut(t.name, cfg.maxNameLength) == Cut(cfg.ioTaskName, cfg.maxNameLength)
  }

  /** The events of one call of the task's function, which is not called for the IO task. */
  function Body(cfg: Config, t: Tcb): seq<Event> {
    if t.code.Some? && !NamedAsIoTask(cfg, t) then t.code.value else []
  }

  // ----- The steps of a schedule -----

  function Hooks(h: Handle, es: seq<Event>): seq<Op> {
    if es == [] then [] else Hooks(h, es[..|es| - 1]) + [Hook(h, es[|es| - 1], true)]
  }

  function Calls(h: Handle, body: seq<Event>, iters: nat): seq<Op> {
    if iters == 0 then [] else Calls(h, body, iters - 1) + Hooks(h, body)
  }

  function Turn(cfg: Config, t: Tcb, iters: nat): seq<Op> {
    if t.number == 0 then []
    else
      [SwitchedIn(t.handle, t.priority, true, true)] + Calls(t.handle, Body(cfg, t), iters)
      + [SwitchedOut(t.handle, true, true)]
  }

  /** The first `n` entries in turn. */
  function Round(cfg: Config, tcbs: seq<Tcb>, iters: nat, n: nat): seq<Op>
    requires n <= |tcbs|
  {
    if n == 0 then [] else Round(cfg, tcbs, iters, n - 1) + Turn(cfg, tcbs[n - 1], iters)
  }

  function Schedule(cfg: Config, tcbs: seq<Tcb>, iters: nat, rounds: nat): seq<Op> {
    if rounds == 0 then [] else Schedule(cfg, tcbs, iters, rounds - 1) + Round(cfg, tcbs, iters, |tcbs|)
  }

  // ----- The loops -----

  /** One call of a task's function. */
  method CallTask(b: Backend, h: Handle, body: seq<Event>)
    requires b.Valid()
    modifies b
    ensures b.Abs() == RunFrom(b.cfg, old(b.Abs()), Hooks(h, body))
    ensures b.isEnabled ==> old(b.isEnabled) && b.critical == old(b.critical)
  {
    hide Step;
    var i := 0;
    while i < |body|
      invariant i <= |body|
      invariant b.Abs() == RunFrom(b.cfg, old(b.Abs()), Hooks(h, body[..i]))
      invariant b.isEnabled ==> old(b.isEnabled) && b.critical == old(b.critical)
    {
      b.TraceHook(h, body[i], true);
      assert body[..i + 1][..i] == body[..i];
      RunFromOne(b.cfg, old(b.Abs()), Hooks(h, body[..i]), Hook(h, body[i], true));
      i := i + 1;
    }
    assert body[..|body|] == body;
  }

  method RunTask(b: Backend, t: Tcb, iters: nat)
    requires b.Valid() && t.number != 0
    modifies b, b.tcbProbes
    ensures b.Abs() == RunFrom(b.cfg, old(b.Abs()), Turn(b.cfg, t, iters))
    ensures b.isEnabled ==> old(b.isEnabled) && b.critical == old(b.critical)
  {
    hide Step, Hooks, Body;
    ghost var s := b.Abs();
    ghost var first := [SwitchedIn(t.handle, t.priority, true, true)];
    b.TraceTaskSwitchedIn(t.handle, t.priority, true, true);
    RunFromOne(b.cfg, s, [], first[0]);
    assert [] + first == first;
    var i := 0;
    while i < iters
      invariant i <= iters
      invariant b.Abs() == RunFrom(b.cfg, s, first + Calls(t.handle, Body(b.cfg, t), i))
      invariant b.isEnabled ==> old(b.isEnabled) && b.critical == old(b.critical)
    {
      ghost var done := first + Calls(t.handle, Body(b.cfg, t), i);
      CallTask(b, t.handle, Body(b.cfg, t));
      RunFromAppend(b.cfg, s, done, Hooks(t.handle, Body(b.cfg, t)));
      assert done + Hooks(t.handle, Body(b.cfg, t)) == first + Calls(t.handle, Body(b.cfg, t), i + 1);
      i := i + 1;
    }
    b.TraceTaskSwitchedOut(t.handle, true, true);
    RunFromOne(b.cfg, s, first + Calls(t.handle, Body(b.cfg, t), iters), SwitchedOut(t.handle, true, true));
  }

  /** `vTaskStartScheduler`. */
  method StartScheduler(b: Backend, tcbs: seq<Tcb>, iters: nat, rounds: nat)
    requires b.Valid()
    modifies b, b.tcbProbes
    ensures b.Abs() == RunFrom(b.cfg, old(b.Abs()), Schedule(b.cfg, tcbs, iters, rounds))
    ensures b.isEnabled ==> old(b.isEnabled) && b.critical == old(b.critical)
  {
    hide Step, Turn;
    ghost var s := b.Abs();
    var r := 0;
    while r < rounds
      invariant r <= rounds
      invariant b.Abs() == RunFrom(b.cfg, s, Schedule(b.cfg, tcbs, iters, r))
      invariant b.isEnabled ==> old(b.isEnabled) && b.critical == old(b.critical)
    {
      ghost var before := Schedule(b.cfg, tcbs, iters, r);
      var i := 0;
      assert before + Round(b.cfg, tcbs, iters, 0) == before;
      while i < |tcbs|
        invariant i <= |tcbs|
        invariant b.Abs() == RunFrom(b.cfg, s, before + Round(b.cfg, tcbs, iters, i))
        invariant b.isEnabled ==> old(b.isEnabled) && b.critical == old(b.critical)
      {
        ghost var done := before + Round(b.cfg, tcbs, iters, i);
        RunFromAppend(b.cfg, s, done, Turn(b.cfg, tcbs[i], iters));
        assert done + Turn(b.cfg, tcbs[i], iters) == before + Round(b.cfg, tcbs, iters, i + 1);
        if tcbs[i].number == 0 {
          NoTurn(b.cfg, tcbs[i], iters);
          i := i + 1;
          continue;
        }
        RunTask(b, tcbs[i], iters);
        i := i + 1;
      }
      r := r + 1;
    }
  }

  // ----- Which functions are called -----

  /** The hook `op` is run by the function of an entry that is in use, and is not the IO task's. */
  ghost predicate CalledFrom(cfg: Config, tcbs: seq<Tcb>, op: Op) {
    exists t :: t in tcbs && t.number != 0 && op.Hook? && op.task == t.handle
                && t.code.Some? && op.event in t.code.value
                && !(cfg.includeIoTask && Cut(t.name, cfg.maxNameLength) == Cut(cfg.ioTaskName, cfg.maxNameLength))
  }

  lemma {:induction false} HooksAre(h: Handle, es: seq<Event>)
    ensures forall op :: op in Hooks(h, es) ==> op.Hook? && op.task == h && op.event in es
  {
    if es != [] {
      HooksAre(h, es[..|es| - 1]);
    }
  }

  lemma {:induction false} CallsAre(h: Handle, body: seq<Event>, iters: nat)
    ensures forall op :: op in Calls(h, body, iters) ==> op.Hook? && op.task == h && op.event in body
  {
    if iters > 0 {
      CallsAre(h, body, iters - 1);
      HooksAre(h, body);
    }
  }

  lemma TurnHooks(cfg: Config, tcbs: seq<Tcb>, iters: nat, t: Tcb)
    requires t in tcbs
    ensures forall op :: op in Turn(cfg, t, iters) && op.Hook? ==> CalledFrom(cfg, tcbs, op)
  {
    CallsAre(t.handle, Body(cfg, t), iters);
    hide Calls;
  }

  lemma {:induction false} RoundHooks(cfg: Config, tcbs: seq<Tcb>, iters: nat, n: nat)
    requires n <= |tcbs|
    ensures forall op :: op in Round(cfg, tcbs, iters, n) && op.Hook? ==> CalledFrom(cfg, tcbs, op)
  {
    hide CalledFrom, Turn;
    if n > 0 {
      RoundHooks(cfg, tcbs, iters, n - 1);
      TurnHooks(cfg, tcbs, iters, tcbs[n - 1]);
    }
  }

  /** Every hook in a schedule is one that the function of some task in use runs, and never the IO task's. */
  lemma {:induction false} OnlyTaskFunctionsAreCalled(cfg: Config, tcbs: seq<Tcb>, iters: nat, rounds: nat)
    ensures forall op :: op in Schedule(cfg, tcbs, iters, rounds) && op.Hook? ==> CalledFrom(cfg, tcbs, op)
  {
    hide CalledFrom, Round;
    if rounds > 0 {
      OnlyTaskFunctionsAreCalled(cfg, tcbs, iters, rounds - 1);
      RoundHooks(cfg, tcbs, iters, |tcbs|);
    }
  }

  lemma NoTurn(cfg: Config, t: Tcb, iters: nat)
    requires t.number == 0
    ensures Turn(cfg, t, iters) == []
  {
  }
}
