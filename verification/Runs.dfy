/** Runs that are continued. */
module Runs {
  import opened Trace

  /** The last step of a run. */
  lemma LastStep(cfg: Config, ops: seq<Op>)
    requires ops != [] && Legal(cfg, ops)
    ensures var front, op := ops[..|ops| - 1], ops[|ops| - 1];
            && Legal(cfg, front) && Allowed(cfg, KernelRun(front), op) && front + [op] == ops
            && Run(cfg, ops) == Step(cfg, Run(cfg, front), op) && KernelRun(ops) == KernelStep(KernelRun(front), op)
  {
    hide Step, KernelStep, Allowed;
  }

  lemma RunExtends(cfg: Config, ops: seq<Op>, op: Op)
    ensures Run(cfg, ops + [op]) == Step(cfg, Run(cfg, ops), op)
    ensures KernelRun(ops + [op]) == KernelStep(KernelRun(ops), op)
    ensures Legal(cfg, ops) && Allowed(cfg, KernelRun(ops), op) ==> Legal(cfg, ops + [op])
  {
    assert (ops + [op])[..|ops|] == ops;
    hide Step, KernelStep, Allowed;
  }

  lemma RunContinues(cfg: Config, ops: seq<Op>, more: seq<Op>)
    requires more != [] && Legal(cfg, ops + more)
    ensures var front, op := ops + more[..|more| - 1], more[|more| - 1];
            && ops + more == front + [op] && Legal(cfg, front) && Allowed(cfg, KernelRun(front), op)
            && Run(cfg, ops + more) == Step(cfg, Run(cfg, front), op)
  {
    hide Step, Allowed;
    assert (ops + more)[..|ops + more| - 1] == ops + more[..|more| - 1];
  }

  lemma {:induction false} LegalPrefix(cfg: Config, ops: seq<Op>, more: seq<Op>)
    requires Legal(cfg, ops + more)
    ensures Legal(cfg, ops)
  {
    if more == [] {
      assert ops + more == ops;
    } else {
      hide Allowed;
      assert (ops + more)[..|ops + more| - 1] == ops + more[..|more| - 1];
      LegalPrefix(cfg, ops, more[..|more| - 1]);
    }
  }

  /** A run from some state on. */
  function RunFrom(cfg: Config, s: State, ops: seq<Op>): State {
    if ops == [] then s else Step(cfg, RunFrom(cfg, s, ops[..|ops| - 1]), ops[|ops| - 1])
  }

  lemma {:induction false} RunFromAppend(cfg: Config, s: State, ops: seq<Op>, more: seq<Op>)
    ensures RunFrom(cfg, s, ops + more) == RunFrom(cfg, RunFrom(cfg, s, ops), more)
  {
    if more == [] {
      assert ops + more == ops;
    } else {
      assert (ops + more)[..|ops + more| - 1] == ops + more[..|more| - 1];
      RunFromAppend(cfg, s, ops, more[..|more| - 1]);
      hide Step;
    }
  }

  lemma {:induction false} RunIsRunFrom(cfg: Config, ops: seq<Op>, more: seq<Op>)
    ensures Run(cfg, ops + more) == RunFrom(cfg, Run(cfg, ops), more)
  {
    if more == [] {
      assert ops + more == ops;
    } else {
      assert (ops + more)[..|ops + more| - 1] == ops + more[..|more| - 1];
      RunIsRunFrom(cfg, ops, more[..|more| - 1]);
      hide Step;
    }
  }

  lemma RunFromOne(cfg: Config, s: State, ops: seq<Op>, op: Op)
    ensures RunFrom(cfg, s, ops + [op]) == Step(cfg, RunFrom(cfg, s, ops), op)
  {
    assert (ops + [op])[..|ops|] == ops;
    hide Step;
  }
}
