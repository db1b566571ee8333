/** The IO task's visits while other tasks run and register: every probe there was is visited, once, in order. */
module Visits {
  import opened IoTask
  import opened Options
  import opened Registry
  import opened Runs
  import opened Trace

  /** Every slot in use stays in use, with the same task and probe. */
  ghost predicate SlotsStay(s: State, t: State) {
    && |t.slots| == |s.slots|
    && forall i :: 0 <= i < |s.slots| && s.slots[i].tcb != NULL ==>
         t.slots[i].tcb == s.slots[i].tcb && t.slots[i].probe == s.slots[i].probe
  }

  lemma StepKeepsSlots(cfg: Config, s: State, k: Kernel, op: Op)
    requires RegistryInv(cfg, s, k) && Allowed(cfg, k, op)
    ensures SlotsStay(s, Step(cfg, s, op))
  {
    var t := Step(cfg, s, op);
    if op.Create? && s.enabled {
      RegisterEffect(cfg, s, op.task, op.name, op.priority, op.env);
      hide Register, Filter, Numbered, FindSlotFrom, SlotInv, Traced;
      assert t == Register(cfg, s, op.task, op.name, op.priority, op.env);
    } else if op.Create? {
      DisabledCreate(cfg, s, op);
    } else {
      StepSame(cfg, s, k, op);
      hide Step, RegistryInv, Allowed;
      assert forall i :: 0 <= i < |s.slots| ==> SameSlot(s.slots[i], t.slots[i]);
    }
  }

  lemma {:induction false} RunKeepsSlots(cfg: Config, ops: seq<Op>, more: seq<Op>)
    requires Legal(cfg, ops + more)
    ensures SlotsStay(Run(cfg, ops), Run(cfg, ops + more))
  {
    if more == [] {
      assert ops + more == ops;
    } else {
      hide Run, KernelRun, Legal, Step, Allowed, RegistryInv;
      var front := ops + more[..|more| - 1];
      RunContinues(cfg, ops, more);
      RunKeepsSlots(cfg, ops, more[..|more| - 1]);
      ReachableRegistry(cfg, front);
      StepKeepsSlots(cfg, Run(cfg, front), KernelRun(front), more[|more| - 1]);
    }
  }

  /** The slots in use come first, and their probes were made in this order. */
  ghost predicate Packed(slots: seq<Slot>) {
    && (forall i :: 0 <= i < |slots| ==> (slots[i].tcb != NULL <==> slots[i].probe.Some?))
    && (forall i, j :: 0 <= i < j < |slots| && slots[j].probe.Some? ==>
          slots[i].probe.Some? && slots[i].probe.value < slots[j].probe.value)
  }

  lemma ReachablePacked(cfg: Config, ops: seq<Op>)
    requires Legal(cfg, ops)
    ensures Packed(Run(cfg, ops).slots)
  {
    ReachableRegistry(cfg, ops);
    hide Run, KernelRun, Legal, Filter, ProbeId, Traced;
    var s, k := Run(cfg, ops), KernelRun(ops);
    forall i | 0 <= i < |s.slots|
      ensures s.slots[i].tcb != NULL <==> s.slots[i].probe.Some?
    {
      assert s.slots[i].tcb != NULL ==> SlotInv(s, k, s.slots[i]);
    }
  }

  lemma {:induction false} AllInUse(slots: seq<Slot>, i: nat)
    requires i <= |slots| && forall j :: 0 <= j < i ==> slots[j].probe.Some?
    ensures |ProbesOf(slots, i)| == i
  {
    if i > 0 {
      AllInUse(slots, i - 1);
    }
  }

  ghost predicate Increasing(ps: seq<nat>) {
    forall a, b :: 0 <= a < b < |ps| ==> ps[a] < ps[b]
  }

  /** The probe is in one of the first `i` slots. */
  ghost predicate InSlots(slots: seq<Slot>, p: nat, i: nat) {
    exists j :: 0 <= j < i && j < |slots| && slots[j].probe == Some(p)
  }

  ghost predicate InTable(slots: seq<Slot>, ps: seq<nat>, i: nat) {
    forall a :: 0 <= a < |ps| ==> InSlots(slots, ps[a], i)
  }

  /**
   * Up to slot `i`, the probes there were at the start have been visited before any others, none twice and in the
   * order in which they were made; and all that were visited are in the table.
   */
  ghost predicate VisitedInOrder(s: State, t: State, visited: seq<nat>, i: nat) {
    && ProbesOf(s.slots, i) <= visited && |visited| <= i
    && Increasing(visited) && InTable(t.slots, visited, i)
  }

  /** A probe visited in a slot before slot `i` stays in the table, and was made before the one in slot `i`. */
  lemma EarlierProbe(t: State, u: State, v: State, p: nat, i: nat)
    requires Packed(t.slots) && Packed(u.slots) && i < |u.slots| && InSlots(t.slots, p, i)
    requires SlotsStay(t, u) && SlotsStay(u, v)
    ensures InSlots(v.slots, p, i)
    ensures u.slots[i].probe.Some? ==> p < u.slots[i].probe.value
  {
    var j :| 0 <= j < i && j < |t.slots| && t.slots[j].probe == Some(p);
    assert u.slots[j].probe == Some(p);
    assert v.slots[j].probe == Some(p);
  }

  /** If slot `i` was in use at the start, so were those before it, and their probes are all that has been visited. */
  lemma OldProbesFirst(s: State, u: State, visited: seq<nat>, i: nat)
    requires Packed(s.slots) && SlotsStay(s, u) && i < |s.slots| && ProbesOf(s.slots, i) <= visited && |visited| <= i
    ensures var now := visited + if u.slots[i].probe.Some? then [u.slots[i].probe.value] else [];
            ProbesOf(s.slots, i + 1) <= now
  {
    if s.slots[i].probe.Some? {
      AllInUse(s.slots, i);
      assert visited == ProbesOf(s.slots, i);
    }
  }

  lemma VisitedStay(t: State, u: State, v: State, visited: seq<nat>, i: nat)
    requires Packed(t.slots) && Packed(u.slots) && i < |u.slots|
    requires SlotsStay(t, u) && SlotsStay(u, v) && InTable(t.slots, visited, i)
    ensures InTable(v.slots, visited, i)
    ensures u.slots[i].probe.Some? ==> forall a :: 0 <= a < |visited| ==> visited[a] < u.slots[i].probe.value
  {
    hide Packed, SlotsStay, InSlots;
    forall a | 0 <= a < |visited|
      ensures InSlots(v.slots, visited[a], i)
      ensures u.slots[i].probe.Some? ==> visited[a] < u.slots[i].probe.value
    {
      EarlierProbe(t, u, v, visited[a], i);
    }
  }

  lemma InMoreSlots(slots: seq<Slot>, p: nat, i: nat)
    requires InSlots(slots, p, i) || (i < |slots| && slots[i].probe == Some(p))
    ensures InSlots(slots, p, i + 1)
  {
  }

  lemma VisitedMore(slots: seq<Slot>, visited: seq<nat>, i: nat, found: Option<nat>)
    requires InTable(slots, visited, i) && Increasing(visited)
    requires found.Some? ==> i < |slots| && slots[i].probe == found
    requires found.Some? ==> forall a :: 0 <= a < |visited| ==> visited[a] < found.value
    ensures var now := visited + if found.Some? then [found.value] else [];
            InTable(slots, now, i + 1) && Increasing(now)
  {
    hide InSlots;
    var now := visited + if found.Some? then [found.value] else [];
    forall a | 0 <= a < |now|
      ensures InSlots(slots, now[a], i + 1)
    {
      if a < |visited| {
        assert now[a] == visited[a];
      } else {
        assert found == Some(now[a]);
      }
      InMoreSlots(slots, now[a], i);
    }
  }

  /** One slot more: `s`, `t`, `u` and `v` are the states at the start, before, at, and after the visit to slot `i`. */
  lemma VisitNext(s: State, t: State, u: State, v: State, visited: seq<nat>, i: nat)
    requires Packed(s.slots) && Packed(t.slots) && Packed(u.slots) && i < |s.slots|
    requires SlotsStay(s, u) && SlotsStay(t, u) && SlotsStay(u, v) && VisitedInOrder(s, t, visited, i)
    ensures |u.slots| == |s.slots|
    ensures VisitedInOrder(s, v, visited + if u.slots[i].probe.Some? then [u.slots[i].probe.value] else [], i + 1)
  {
    hide Packed, SlotsStay, ProbesOf, InTable, Increasing;
    SameCount(s, u);
    OldProbesFirst(s, u, visited, i);
    SlotStays(u, v, i);
    VisitedStay(t, u, v, visited, i);
    VisitedMore(v.slots, visited, i, u.slots[i].probe);
  }

  lemma SlotStays(u: State, v: State, i: nat)
    requires Packed(u.slots) && SlotsStay(u, v) && i < |u.slots|
    ensures i < |v.slots| && (u.slots[i].probe.Some? ==> v.slots[i].probe == u.slots[i].probe)
  {
  }

  /**
   * In every legal run, whatever other tasks do during a call of the iterator, it visits every probe that was there
   * when it started, and then perhaps some that are new: none twice, and each while it is in the table.
   */
  lemma {:induction false} InterferedVisit(cfg: Config, boot: seq<Op>, visits: seq<Visit>, i: nat)
    requires Legal(cfg, boot + VisitSteps(cfg, Run(cfg, boot), visits, i)) && i <= |Run(cfg, boot).slots|
    ensures var s := Run(cfg, boot);
            VisitedInOrder(s, Run(cfg, boot + VisitSteps(cfg, s, visits, i)), Visited(cfg, s, visits, i), i)
  {
    hide Run, Legal, Packed, SlotsStay, RunFrom;
    var s := Run(cfg, boot);
    if i == 0 {
      hide *;
      NoneVisited(cfg, s, Run(cfg, boot + VisitSteps(cfg, s, visits, 0)), visits);
    } else {
      var before, all := VisitSteps(cfg, s, visits, i - 1), VisitSteps(cfg, s, visits, i);
      var meanwhile, arrived := VisitAt(visits, i - 1).meanwhile, Arrival(cfg, s, visits, i - 1);
      var tail := all[|arrived|..];
      assert boot + arrived == boot + before + meanwhile && boot + all == boot + arrived + tail;
      LegalPrefix(cfg, boot + arrived, tail);
      LegalPrefix(cfg, boot + before, meanwhile);
      LegalPrefix(cfg, boot, arrived);
      InterferedVisit(cfg, boot, visits, i - 1);
      RunKeepsSlots(cfg, boot, arrived);
      RunKeepsSlots(cfg, boot + before, meanwhile);
      RunKeepsSlots(cfg, boot + arrived, tail);
      ReachablePacked(cfg, boot);
      ReachablePacked(cfg, boot + before);
      ReachablePacked(cfg, boot + arrived);
      RunIsRunFrom(cfg, boot, arrived);
      SameCount(s, Run(cfg, boot + arrived));
      hide VisitedInOrder, VisitSteps;
      VisitNext(s, Run(cfg, boot + before), Run(cfg, boot + arrived), Run(cfg, boot + all),
                Visited(cfg, s, visits, i - 1), i - 1);
    }
  }

  lemma NoneVisited(cfg: Config, s: State, t: State, visits: seq<Visit>)
    ensures VisitedInOrder(s, t, Visited(cfg, s, visits, 0), 0)
  {
  }

  lemma SameCount(s: State, t: State)
    requires SlotsStay(s, t)
    ensures |t.slots| == |s.slots|
  {
  }
}
