/** The loop of the IO task: control messages in, reports and announcements out. */
module IoTask {
  import opened Arithmetic
  import opened Delivery
  import opened Driver
  import opened Options
  import opened Trace
  import opened Runs
  import opened Tracer

  /** What one call of TRACE_IO_READ gives: an error, or a message, which is empty if there was none. */
  datatype Read = Failed | Received(message: Message, to: Option<Destination>)

  function ReadStep(r: Read): Op {
    match r
    case Failed => IoFailure(IoReadFailed)
    case Received(m, to) => Deliver(m, to)
  }

  // ----- Visiting the probes -----

  /**
   * What happens on the way to one slot: other tasks may run, and then the report or announcement of the slot's
   * probe, if it has one, may fail.
   */
  datatype Visit = Visit(meanwhile: seq<Op>, outcome: Option<Error>)

  function VisitAt(visits: seq<Visit>, i: nat): Visit {
    if i < |visits| then visits[i] else Visit([], None)
  }

  /** The steps of a call of `vTraceProbeIterator` up to slot `i`. */
  function VisitSteps(cfg: Config, s: State, visits: seq<Visit>, i: nat): seq<Op>
    decreases i, 0
  {
    if i == 0 then []
    else
      var outcome := VisitAt(visits, i - 1).outcome;
      Arrival(cfg, s, visits, i - 1)
      + if VisitFound(cfg, s, visits, i - 1).Some? && outcome.Some? then [IoFailure(outcome.value)] else []
  }

  /** The steps until slot `i` is looked at. */
  function Arrival(cfg: Config, s: State, visits: seq<Visit>, i: nat): seq<Op>
    decreases i, 1
  {
    VisitSteps(cfg, s, visits, i) + VisitAt(visits, i).meanwhile
  }

  /** The probe that is in slot `i` when it is looked at. */
  function VisitFound(cfg: Config, s: State, visits: seq<Visit>, i: nat): Option<nat>
    decreases i, 2
  {
    var slots := RunFrom(cfg, s, Arrival(cfg, s, visits, i)).slots;
    if i < |slots| then slots[i].probe else None
  }

  /** The probes visited up to slot `i`. */
  function Visited(cfg: Config, s: State, visits: seq<Visit>, i: nat): seq<nat> {
    if i == 0 then []
    else
      Visited(cfg, s, visits, i - 1)
      + match VisitFound(cfg, s, visits, i - 1)
        case None => []
        case Some(p) => [p]
  }

  /** A call of `vTraceProbeIterator` with one of the IO task's two functions. */
  method VisitProbes(b: Backend, visits: seq<Visit>) returns (visited: seq<nat>)
    requires b.Valid()
    modifies b, b.tcbProbes, b.excludedIds
    ensures visited == Visited(b.cfg, old(b.Abs()), visits, b.tcbProbes.Length)
    ensures b.Abs() == RunFrom(b.cfg, old(b.Abs()), VisitSteps(b.cfg, old(b.Abs()), visits, b.tcbProbes.Length))
  {
    hide Step, RunFrom;
    ghost var s := b.Abs();
    visited := [];
    var i := 0;
    NoSteps(b.cfg, s);
    while i < b.tcbProbes.Length
      invariant i <= b.tcbProbes.Length
      invariant visited == Visited(b.cfg, s, visits, i)
      invariant b.Abs() == RunFrom(b.cfg, s, VisitSteps(b.cfg, s, visits, i))
    {
      var visit := VisitAt(visits, i);
      Drive(b, visit.meanwhile);
      RunFromAppend(b.cfg, s, VisitSteps(b.cfg, s, visits, i), visit.meanwhile);
      ghost var arrived := Arrival(b.cfg, s, visits, i);
      assert b.Abs() == RunFrom(b.cfg, s, arrived);
      var found := b.tcbProbes[i].probe;
      assert found == VisitFound(b.cfg, s, visits, i);
      assert arrived + [] == arrived;
      if found.Some? {
        visited := visited + [found.value];
        if visit.outcome.Some? {
          RunFromOne(b.cfg, s, arrived, IoFailure(visit.outcome.value));
          FailureIsRaise(b.cfg, b.Abs(), visit.outcome.value);
          b.PrvTraceError(visit.outcome.value);
        }
      }
      i := i + 1;
    }
  }

  lemma NoSteps(cfg: Config, s: State)
    ensures RunFrom(cfg, s, []) == s
  {
  }

  lemma FailureIsRaise(cfg: Config, s: State, e: Error)
    ensures Step(cfg, s, IoFailure(e)) == Raise(s, e)
  {
  }

  /** The probes in the first `i` slots. */
  function ProbesOf(slots: seq<Slot>, i: nat): seq<nat> {
    if i == 0 then []
    else ProbesOf(slots, i - 1) + if i <= |slots| && slots[i - 1].probe.Some? then [slots[i - 1].probe.value] else []
  }

  /** The errors of the visits in the first `i` slots. */
  function VisitErrors(slots: seq<Slot>, visits: seq<Visit>, i: nat): seq<Error> {
    if i == 0 then []
    else
      VisitErrors(slots, visits, i - 1)
      + match VisitAt(visits, i - 1).outcome
        case None => []
        case Some(e) => if i <= |slots| && slots[i - 1].probe.Some? then [e] else []
  }

  /** The errors `es` have been raised, and nothing else has changed: the first of them may be the one recorded. */
  predicate Raised(s: State, t: State, es: seq<Error>) {
    t == s.(enabled := s.enabled && es == [],
            error := if s.error.None? && es != [] then Some(es[0]) else s.error,
            raises := s.raises + |es|)
  }

  lemma RaisedBoth(s: State, t: State, u: State, es: seq<Error>, fs: seq<Error>)
    requires Raised(s, t, es) && Raised(t, u, fs)
    ensures Raised(s, u, es + fs)
  {
    assert es == [] ==> es + fs == fs;
  }

  predicate Undisturbed(visits: seq<Visit>) {
    forall v :: v in visits ==> v.meanwhile == []
  }

  /**
   * If no other task runs, exactly the probes there are when the call starts are visited, in order, whichever visits
   * fail; and the errors of those that do are raised.
   */
  lemma {:induction false} UndisturbedVisit(cfg: Config, s: State, visits: seq<Visit>, i: nat)
    requires Undisturbed(visits)
    ensures Visited(cfg, s, visits, i) == ProbesOf(s.slots, i)
    ensures Raised(s, RunFrom(cfg, s, VisitSteps(cfg, s, visits, i)), VisitErrors(s.slots, visits, i))
  {
    NoSteps(cfg, s);
    hide Step, RunFrom;
    if i > 0 {
      UndisturbedVisit(cfg, s, visits, i - 1);
      var visit, arrived := VisitAt(visits, i - 1), Arrival(cfg, s, visits, i - 1);
      assert arrived == VisitSteps(cfg, s, visits, i - 1);
      assert arrived + [] == arrived;
      if visit.outcome.Some? {
        RunFromOne(cfg, s, arrived, IoFailure(visit.outcome.value));
        FailureIsRaise(cfg, RunFrom(cfg, s, arrived), visit.outcome.value);
      }
    }
  }

  // ----- The counter -----

  /** Announcements are due in iteration `i`, from 0, when every `period + 1` iterations. */
  predicate Due(period: nat, i: nat) {
    period < 0xFFFF && i > 0 && i % (period + 1) == 0
  }

  /**
   * The 16-bit counter at the start of iteration `i`. It never wraps if the period fits; and if the period
   * does not, it never exceeds it.
   */
  ghost function Counter(period: nat, i: nat): nat {
    if period >= 0xFFFF then i % 0x1_0000
    else if i == 0 then 0
    else (i - 1) % (period + 1) + 1
  }

  /** The test and the update of the counter, when `m` and `next` are the remainders of `i - 1` and `i`. */
  lemma ShortPeriod(period: nat, m: nat, next: nat)
    requires period < 0xFFFF && m <= period && next == if m == period then 0 else m + 1
    ensures (m + 1 > period) == (next == 0)
    ensures next + 1 == ((if next == 0 then 0 else m + 1) + 1) % 0x1_0000
  {
  }

  lemma LongPeriod(period: nat, m: nat, next: nat)
    requires period >= 0xFFFF && m < 0x1_0000 && next == if m + 1 == 0x1_0000 then 0 else m + 1
    ensures m <= period && next == (m + 1) % 0x1_0000
  {
  }

  /** The test and the update of the counter in iteration `i`. */
  lemma CounterNext(period: nat, i: nat)
    ensures (Counter(period, i) > period) == Due(period, i)
    ensures Counter(period, i + 1) == ((if Due(period, i) then 0 else Counter(period, i)) + 1) % 0x1_0000
  {
    if period >= 0xFFFF {
      ModNext(i, 0x1_0000);
      LongPeriod(period, i % 0x1_0000, (i + 1) % 0x1_0000);
    } else if i == 0 {
      ModUnique(0, period + 1, 0, 0);
    } else {
      ModNext(i - 1, period + 1);
      ShortPeriod(period, (i - 1) % (period + 1), i % (period + 1));
    }
  }

  // ----- The loop -----

  /** What happens in one iteration: what is read, both rounds of visits, and what other tasks do in the delay. */
  datatype Iteration = Iteration(read: Read, reports: seq<Visit>, announcements: seq<Visit>, meanwhile: seq<Op>)

  /** The steps of an iteration until announcements may be due. */
  function ReportSteps(cfg: Config, s: State, it: Iteration): seq<Op> {
    var op := ReadStep(it.read);
    [op] + VisitSteps(cfg, Step(cfg, s, op), it.reports, |s.slots|)
  }

  /** The steps of one iteration from state `s`. */
  function IterationSteps(cfg: Config, s: State, due: bool, it: Iteration): seq<Op> {
    var front := ReportSteps(cfg, s, it);
    front + (if due then VisitSteps(cfg, RunFrom(cfg, s, front), it.announcements, |s.slots|) else []) + it.meanwhile
  }

  /** The probes visited for a report in an iteration. */
  function Reported(cfg: Config, s: State, it: Iteration): seq<nat> {
    Visited(cfg, Step(cfg, s, ReadStep(it.read)), it.reports, |s.slots|)
  }

  /** The probes announced in an iteration in which announcements are due. */
  function Announced(cfg: Config, s: State, it: Iteration): seq<nat> {
    Visited(cfg, RunFrom(cfg, s, ReportSteps(cfg, s, it)), it.announcements, |s.slots|)
  }

  ghost function LoopSteps(cfg: Config, s: State, period: nat, its: seq<Iteration>): seq<Op> {
    if its == [] then []
    else
      var front := LoopSteps(cfg, s, period, its[..|its| - 1]);
      front + IterationSteps(cfg, RunFrom(cfg, s, front), Due(period, |its| - 1), its[|its| - 1])
  }

  /** The state in which iteration `i` starts. */
  ghost function Before(cfg: Config, s: State, period: nat, its: seq<Iteration>, i: nat): State
    requires i <= |its|
  {
    RunFrom(cfg, s, LoopSteps(cfg, s, period, its[..i]))
  }

  /** The probes announced, iteration by iteration: none unless announcements are due. */
  ghost function Announcements(cfg: Config, s: State, period: nat, its: seq<Iteration>): seq<seq<nat>> {
    if its == [] then []
    else
      var n := |its| - 1;
      Announcements(cfg, s, period, its[..n])
      + [if Due(period, n) then Announced(cfg, Before(cfg, s, period, its, n), its[n]) else []]
  }

  // ----- What an iteration does -----

  /** The messages of a slot after `m` has been read: as they were, and `m` if it is for the slot's task and fits. */
  function Gains(cfg: Config, slot: Slot, id: bv16, m: Message, to: Option<Destination>): Option<seq<Message>> {
    if slot.tcb != NULL && m != [] && (to == Some(Broadcast) || to == Some(ToProbe(id as bv32)))
       && slot.messages.Some? && Fits(cfg, slot.messages.value + [m])
    then
      Some(slot.messages.value + [m])
    else slot.messages
  }

  /** What a read does: it fails, and that is raised; or every task that the message is for gets it, if it fits. */
  ghost predicate ReadDone(cfg: Config, s: State, t: State, read: Read) {
    match read
    case Failed => Raised(s, t, [IoReadFailed])
    case Received(m, to) =>
      && t == s.(slots := t.slots) && |t.slots| == |s.slots|
      && forall j :: 0 <= j < |s.slots| ==>
           t.slots[j] == s.slots[j].(messages := Gains(cfg, s.slots[j], ProbeId(s, s.slots[j].tcb), m, to))
  }

  predicate Alone(it: Iteration) {
    Undisturbed(it.reports) && Undisturbed(it.announcements) && it.meanwhile == []
  }

  /** What the visits of an iteration do when no other task runs: `s` and `t` are the states before and after them. */
  ghost predicate VisitsDone(s: State, t: State, due: bool, it: Iteration, reported: seq<nat>, announced: seq<nat>) {
    var n := |s.slots|;
    && reported == ProbesOf(s.slots, n) && announced == (if due then ProbesOf(s.slots, n) else [])
    && Raised(s, t, VisitErrors(s.slots, it.reports, n)
                    + if due then VisitErrors(s.slots, it.announcements, n) else [])
  }

  /** What an iteration from `s` to `t` does: the read, in which nothing else can run, and what follows it. */
  ghost predicate Iterated(cfg: Config, s: State, between: State, t: State, due: bool, it: Iteration,
                           reported: seq<nat>, announced: seq<nat>) {
    && ReadDone(cfg, s, between, it.read)
    && (Alone(it) ==> VisitsDone(between, t, due, it, reported, announced))
  }

  lemma RouteIsGain(cfg: Config, slot: Slot, id: bv16, m: Message, to: Option<Destination>)
    ensures slot.(messages := Gains(cfg, slot, id, m, to)) ==
            if m == [] || to.None? then slot else RouteToSlot(cfg, slot, id, m, to.value)
  {
    ReachesOnly(to, id);
    if slot.messages.Some? {
      RoomIsFit(cfg, slot.messages.value, m);
    }
    hide HasRoom, Reaches, Fits;
  }

  lemma ReadIsDone(cfg: Config, s: State, read: Read)
    ensures ReadDone(cfg, s, Step(cfg, s, ReadStep(read)), read)
  {
    hide ProbeId, RouteToSlot, Gains;
    match read
    case Failed =>
    case Received(m, to) =>
      forall slot: Slot, id
        ensures slot.(messages := Gains(cfg, slot, id, m, to)) ==
                if m == [] || to.None? then slot else RouteToSlot(cfg, slot, id, m, to.value)
      {
        RouteIsGain(cfg, slot, id, m, to);
      }
  }

  /** The visits of an iteration from state `s`, after its read, when no other task runs. */
  lemma VisitsAreDone(cfg: Config, s: State, due: bool, it: Iteration, n: nat)
    requires Alone(it) && n == |s.slots|
    ensures var s1 := RunFrom(cfg, s, VisitSteps(cfg, s, it.reports, n));
            var s2 := if due then RunFrom(cfg, s1, VisitSteps(cfg, s1, it.announcements, n)) else s1;
            VisitsDone(s, s2, due, it, Visited(cfg, s, it.reports, n),
                       if due then Visited(cfg, s1, it.announcements, n) else [])
  {
    hide RunFrom, VisitSteps, Visited, ProbesOf, VisitErrors;
    UndisturbedVisit(cfg, s, it.reports, n);
    var s1, es := RunFrom(cfg, s, VisitSteps(cfg, s, it.reports, n)), VisitErrors(s.slots, it.reports, n);
    if due {
      UndisturbedVisit(cfg, s1, it.announcements, n);
      RaisedBoth(s, s1, RunFrom(cfg, s1, VisitSteps(cfg, s1, it.announcements, n)), es,
                 VisitErrors(s.slots, it.announcements, n));
    } else {
      assert es + [] == es;
    }
  }

  /** One iteration, but for the counter. */
  method Iterate(b: Backend, due: bool, it: Iteration)
    returns (reported: seq<nat>, announced: seq<nat>, ghost read: State)
    requires b.Valid()
    modifies b, b.tcbProbes, b.excludedIds
    ensures b.Abs() == RunFrom(b.cfg, old(b.Abs()), IterationSteps(b.cfg, old(b.Abs()), due, it))
    ensures reported == Reported(b.cfg, old(b.Abs()), it)
    ensures announced == if due then Announced(b.cfg, old(b.Abs()), it) else []
    ensures Iterated(b.cfg, old(b.Abs()), read, b.Abs(), due, it, reported, announced)
  {
    hide Step, ReadStep, RunFrom, VisitSteps, Visited, ReadDone, VisitsDone, Undisturbed;
    ghost var s, n := b.Abs(), b.tcbProbes.Length;
    ghost var op := ReadStep(it.read);
    ReadOne(b, it.read);
    read := b.Abs();
    ReadIsDone(b.cfg, s, it.read);
    if Alone(it) {
      VisitsAreDone(b.cfg, read, due, it, n);
    }
    OneStepRun(b.cfg, s, op);
    RunFromAppend(b.cfg, s, [op], VisitSteps(b.cfg, b.Abs(), it.reports, n));
    reported := VisitProbes(b, it.reports);
    ghost var ops := ReportSteps(b.cfg, s, it);
    announced := [];
    if due {
      RunFromAppend(b.cfg, s, ops, VisitSteps(b.cfg, b.Abs(), it.announcements, n));
      announced := VisitProbes(b, it.announcements);
    }
    assert ops + [] == ops;
    ops := ops + if due then VisitSteps(b.cfg, RunFrom(b.cfg, s, ops), it.announcements, n) else [];
    NoSteps(b.cfg, b.Abs());
    Drive(b, it.meanwhile);
    RunFromAppend(b.cfg, s, ops, it.meanwhile);
  }

  lemma OneStepRun(cfg: Config, s: State, op: Op)
    ensures RunFrom(cfg, s, [op]) == Step(cfg, s, op)
  {
    assert [op][..0] == [];
    hide Step;
  }

  /**
   * The IO task's loop, for any number of iterations. It announces exactly in the iterations whose number is a
   * positive multiple of `period + 1`, and never if that is more than the counter can hold. Iteration `i` is
   * from `states[i]` to `states[i + 1]`, and `between[i]` is the state in between, after the read.
   */
  method IoLoop(b: Backend, period: nat, its: seq<Iteration>)
    returns (reported: seq<seq<nat>>, announced: seq<seq<nat>>, ghost states: seq<State>, ghost between: seq<State>)
    requires b.Valid()
    modifies b, b.tcbProbes, b.excludedIds
    ensures b.Abs() == RunFrom(b.cfg, old(b.Abs()), LoopSteps(b.cfg, old(b.Abs()), period, its))
    ensures announced == Announcements(b.cfg, old(b.Abs()), period, its)
    ensures |reported| == |announced| == |between| == |its| && |states| == |its| + 1
    ensures states[0] == old(b.Abs()) && states[|its|] == b.Abs()
    ensures forall i :: 0 <= i < |its| ==>
              && states[i] == Before(b.cfg, old(b.Abs()), period, its, i)
              && reported[i] == Reported(b.cfg, states[i], its[i])
              && Iterated(b.cfg, states[i], between[i], states[i + 1],
                          period < 0xFFFF && i > 0 && i % (period + 1) == 0, its[i], reported[i], announced[i])
  {
    hide Counter, RunFrom, IterationSteps, Announced, Reported, Iterated, Announcements, Before, Due;
    ghost var s := b.Abs();
    var iters := 0;
    var i := 0;
    reported, announced, states, between := [], [], [s], [];
    LoopStart(b.cfg, s, period, its);
    while i < |its|
      invariant i <= |its|
      invariant iters == Counter(period, i)
      invariant b.Abs() == Before(b.cfg, s, period, its, i)
      invariant announced == Announcements(b.cfg, s, period, its[..i])
      invariant |reported| == |announced| == |between| == i && |states| == i + 1
      invariant states[0] == s && states[i] == b.Abs()
      invariant forall j :: 0 <= j < i ==>
                  && states[j] == Before(b.cfg, s, period, its, j)
                  && reported[j] == Reported(b.cfg, states[j], its[j])
                  && Iterated(b.cfg, states[j], between[j], states[j + 1], Due(period, j), its[j],
                              reported[j], announced[j])
    {
      CounterNext(period, i);
      LoopNext(b.cfg, s, period, its, i);
      var due := iters > period;
      var seen, sent;
      ghost var read;
      seen, sent, read := Iterate(b, due, its[i]);
      reported, announced := reported + [seen], announced + [sent];
      states, between := states + [b.Abs()], between + [read];
      if due {
        iters := 0;
      }
      iters := (iters + 1) % 0x1_0000;
      i := i + 1;
    }
    assert its[..i] == its;
    LoopEnd(b.cfg, s, period, its);
    DueIs(period);
  }

  lemma LoopEnd(cfg: Config, s: State, period: nat, its: seq<Iteration>)
    ensures Before(cfg, s, period, its, |its|) == RunFrom(cfg, s, LoopSteps(cfg, s, period, its))
  {
    assert its[..|its|] == its;
  }

  lemma DueIs(period: nat)
    ensures forall i: nat :: Due(period, i) == (period < 0xFFFF && i > 0 && i % (period + 1) == 0)
  {
  }

  /** One more iteration. */
  lemma LoopNext(cfg: Config, s: State, period: nat, its: seq<Iteration>, i: nat)
    requires i < |its|
    ensures var before := Before(cfg, s, period, its, i);
            && Before(cfg, s, period, its, i + 1) ==
               RunFrom(cfg, before, IterationSteps(cfg, before, Due(period, i), its[i]))
            && Announcements(cfg, s, period, its[..i + 1]) ==
               Announcements(cfg, s, period, its[..i])
               + [if Due(period, i) then Announced(cfg, before, its[i]) else []]
  {
    hide RunFrom, IterationSteps, Announced, Due;
    assert its[..i + 1][..i] == its[..i];
    RunFromAppend(cfg, s, LoopSteps(cfg, s, period, its[..i]),
                  IterationSteps(cfg, Before(cfg, s, period, its, i), Due(period, i), its[i]));
  }

  lemma LoopStart(cfg: Config, s: State, period: nat, its: seq<Iteration>)
    ensures Counter(period, 0) == 0 && Before(cfg, s, period, its, 0) == s
    ensures Announcements(cfg, s, period, its[..0]) == []
  {
  }

  lemma {:induction false} AnnouncementAt(cfg: Config, s: State, period: nat, its: seq<Iteration>, i: nat)
    requires i < |its|
    ensures |Announcements(cfg, s, period, its)| == |its|
    ensures Announcements(cfg, s, period, its)[i] ==
            if period < 0xFFFF && i > 0 && i % (period + 1) == 0 then
              Announced(cfg, Before(cfg, s, period, its, i), its[i])
            else []
  {
    hide RunFrom, LoopSteps, Announced;
    var n := |its| - 1;
    var front := its[..n];
    if front != [] {
      AnnouncementAt(cfg, s, period, front, if i < n then i else 0);
    }
    if i < n {
      assert front[..i] == its[..i];
    }
  }

  method ReadOne(b: Backend, r: Read)
    requires b.Valid()
    modifies b, b.tcbProbes
    ensures b.Abs() == Step(b.cfg, old(b.Abs()), ReadStep(r))
  {
    hide Route;
    match r {
      case Failed => b.PrvTraceError(IoReadFailed);
      case Received(m, to) => b.RouteMessage(m, to);
    }
  }
}
