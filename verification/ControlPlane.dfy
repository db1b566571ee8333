/** Control plane messages: each task's buffer is a queue of its own, which loses and duplicates nothing. */
module ControlPlane {
  import opened Options
  import opened ProbeIdHash
  import opened Trace
  import opened Registry
  import opened Causality
  import opened Logs
  import opened Runs

  /** A task's messages: those handed to its probe, and those still in its buffer. */
  datatype Mailbox = Mailbox(handed: seq<Message>, waiting: seq<Message>)

  const EMPTY := Mailbox([], [])

  /** The mailbox of a task that has control plane buffers. */
  ghost function BoxOf(s: State, h: Handle): Option<Mailbox> {
    var p := ProbeOf(s, h);
    if p.Some? && p.value < |s.probes| && SlotOf(s, h).messages.Some? then
      Some(Mailbox(s.probes[p.value].control, SlotOf(s, h).messages.value))
    else None
  }

  /** A message read by the IO task is for the task of this name, and there is room for it. */
  predicate Accepts(cfg: Config, box: Mailbox, name: Bytes, op: Op) {
    op.Deliver? && op.message != [] && op.to.Some? && Reaches(op.to.value, HashName(name))
    && HasRoom(cfg, box.waiting, op.message)
  }

  /** The task takes its oldest message and hands it to its probe, if the message fits the task's own buffer. */
  function TakeHead(cfg: Config, box: Mailbox): Mailbox {
    if box.waiting != [] && |box.waiting[0]| <= cfg.taskBufferSize then
      Mailbox(box.handed + [box.waiting[0]], box.waiting[1..])
    else box
  }

  /** What one step does to the mailbox of task `h`. */
  function MailStep(cfg: Config, box: Mailbox, name: Bytes, op: Op, h: Handle): Mailbox {
    if Accepts(cfg, box, name, op) then box.(waiting := box.waiting + [op.message])
    else if op.Process? && op.task == h then TakeHead(cfg, box)
    else box
  }

  /** A queued message is not empty, and fits an empty buffer and the buffer of the IO task. */
  ghost predicate Sendable(cfg: Config, waiting: seq<Message>) {
    forall i :: 0 <= i < |waiting| ==>
      && waiting[i] != []
      && |waiting[i]| + cfg.lengthPrefix <= cfg.messageBufferSize
      && |waiting[i]| <= cfg.ioBufferSize
  }

  // ----- Steps that carry no message -----

  ghost predicate SameMail(s: State, t: State) {
    && |t.slots| == |s.slots| && |t.probes| == |s.probes|
    && (forall i :: 0 <= i < |s.slots| ==>
          && t.slots[i].tcb == s.slots[i].tcb && t.slots[i].probe == s.slots[i].probe
          && t.slots[i].messages == s.slots[i].messages)
    && (forall p :: 0 <= p < |s.probes| ==> t.probes[p].control == s.probes[p].control)
  }

  lemma SameMailSameBox(s: State, t: State, h: Handle)
    requires SameMail(s, t)
    ensures BoxOf(t, h) == BoxOf(s, h)
  {
    SameFind(s.slots, t.slots, h);
    hide FindSlot;
  }

  lemma LogSameMail(s: State, e: Event, ok: bool)
    ensures SameMail(s, LogEvent(s, e, ok))
  {
    hide FindSlotFrom;
  }

  lemma SwitchInSameMail(s: State, task: Handle, priority: nat, mergeOk: bool, recordOk: bool)
    ensures SameMail(s, SwitchIn(s, task, priority, mergeOk, recordOk))
  {
    hide Gate, FindSlotFrom, LogEvent;
    var s1 := SwitchedTcb(s, task);
    var s2 := if s.current != task then MergeSnapshot(s1, mergeOk) else s1;
    assert SameMail(s, s2);
    hide MergeSnapshot;
    LogSameMail(s2, Event(TASK_SWITCHED_IN, Some(priority)), recordOk);
  }

  lemma SwitchOutSameMail(s: State, task: Handle, recordOk: bool, snapshotOk: bool)
    ensures SameMail(s, SwitchOut(s, task, recordOk, snapshotOk))
  {
    hide Gate, FindSlotFrom, LogEvent;
    var s1 := LogEvent(s, Event(TASK_SWITCHED_OUT, None), recordOk);
    LogSameMail(s, Event(TASK_SWITCHED_OUT, None), recordOk);
    assert SameMail(s1, ProduceSnapshot(s1, snapshotOk));
    hide ProduceSnapshot;
  }

  lemma OthersSameMail(cfg: Config, s: State, op: Op)
    requires !op.Create? && !op.Deliver? && !op.Process?
    ensures SameMail(s, Step(cfg, s, op))
  {
    hide Gate, FindSlot, FindId, HashName, EnableTracing, SwitchIn, SwitchOut, LogEvent;
    match op
    case SwitchedIn(task, priority, mergeOk, recordOk) => SwitchInSameMail(s, task, priority, mergeOk, recordOk);
    case SwitchedOut(task, recordOk, snapshotOk) => SwitchOutSameMail(s, task, recordOk, snapshotOk);
    case Hook(task, e, ok) => LogSameMail(s, e, ok);
    case Enable(caller, created, env) => EnableUnfolds(cfg, s, caller, created, env);
    case _ =>
  }

  // ----- Steps that do -----

  lemma BoxUnfolds(cfg: Config, s: State, k: Kernel, h: Handle)
    requires RegistryInv(cfg, s, k)
    ensures BoxOf(s, h).Some? <==> Traced(s, h) && SlotOf(s, h).messages.Some?
    ensures BoxOf(s, h).Some? ==> h in k.names && ProbeId(s, h) == HashName(k.names[h]) && SlotOf(s, h).hasTaskBuffer
  {
    hide Filter, ProbeId, FindSlotFrom, HashName;
    if Traced(s, h) {
      assert SlotInv(s, k, SlotOf(s, h));
    }
  }

  lemma DeliverKeepsBoxes(cfg: Config, s: State, k: Kernel, op: Op, h: Handle)
    requires op.Deliver? && RegistryInv(cfg, s, k)
    ensures match BoxOf(s, h)
            case None => BoxOf(Step(cfg, s, op), h).None?
            case Some(box) => h in k.names && BoxOf(Step(cfg, s, op), h) == Some(MailStep(cfg, box, k.names[h], op, h))
  {
    var t := Step(cfg, s, op);
    BoxUnfolds(cfg, s, k, h);
    RouteFinds(cfg, s, op.message, op.to, h);
    hide RegistryInv, ProbeId, HashName, HasRoom, Reaches, FindSlot, Route;
  }

  lemma RouteFinds(cfg: Config, s: State, m: Message, to: Option<Destination>, h: Handle)
    ensures var t := Route(cfg, s, m, to);
            && Traced(t, h) == Traced(s, h) && t.probes == s.probes
            && (Traced(s, h) ==> SlotOf(t, h) == if m == [] || to.None? then SlotOf(s, h)
                                                 else RouteToSlot(cfg, SlotOf(s, h), ProbeId(s, h), m, to.value))
  {
    hide ProbeId, HasRoom, Reaches;
    SameFind(s.slots, Route(cfg, s, m, to).slots, h);
    hide FindSlot;
  }

  lemma ProcessKeepsBoxes(cfg: Config, s: State, k: Kernel, op: Op, h: Handle)
    requires op.Process? && RegistryInv(cfg, s, k)
    requires BoxOf(s, op.task).Some? ==> Sendable(cfg, BoxOf(s, op.task).value.waiting)
    ensures match BoxOf(s, h)
            case None => BoxOf(Step(cfg, s, op), h).None?
            case Some(box) => h in k.names && BoxOf(Step(cfg, s, op), h) == Some(MailStep(cfg, box, k.names[h], op, h))
  {
    BoxUnfolds(cfg, s, k, h);
    hide RegistryInv, BoxOf, ProcessMessages, TakeHead, Sendable;
    if h == op.task {
      OwnProcess(cfg, s, k, h, op.ok);
    } else {
      OtherProcess(cfg, s, k, op.task, op.ok, h);
    }
  }

  lemma OwnProcess(cfg: Config, s: State, k: Kernel, h: Handle, ok: bool)
    requires RegistryInv(cfg, s, k) && (BoxOf(s, h).Some? ==> Sendable(cfg, BoxOf(s, h).value.waiting))
    ensures match BoxOf(s, h)
            case None => BoxOf(ProcessMessages(cfg, s, h, ok), h).None?
            case Some(box) => BoxOf(ProcessMessages(cfg, s, h, ok), h) == Some(TakeHead(cfg, box))
  {
    BoxUnfolds(cfg, s, k, h);
    NullBox(cfg, s, k);
    hide RegistryInv, ProbeId, HashName, FindSlotFrom;
    SameFind(s.slots, ProcessMessages(cfg, s, h, ok).slots, h);
    hide FindSlot;
  }

  lemma OtherProcess(cfg: Config, s: State, k: Kernel, task: Handle, ok: bool, h: Handle)
    requires RegistryInv(cfg, s, k) && h != task
    ensures BoxOf(ProcessMessages(cfg, s, task, ok), h) == BoxOf(s, h)
  {
    hide RegistryInv, FindSlot, ProcessMessages;
    var t := ProcessMessages(cfg, s, task, ok);
    NullBox(cfg, s, k);
    SlotNamesProbe(cfg, s, k, h);
    ProcessFrame(cfg, s, task, ok);
    SameFind(s.slots, t.slots, h);
    if ProbeOf(s, h).Some? {
      ProbesDiffer(cfg, s, k, h, task);
    }
  }

  /** Processing touches the slot it finds, and the probe of that slot. */
  lemma ProcessFrame(cfg: Config, s: State, task: Handle, ok: bool)
    ensures var t, i := ProcessMessages(cfg, s, task, ok), FindSlot(s.slots, task);
            && |t.slots| == |s.slots| && |t.probes| == |s.probes|
            && (forall j :: 0 <= j < |s.slots| ==>
                  && t.slots[j] == s.slots[j].(messages := t.slots[j].messages)
                  && (Some(j) != i ==> t.slots[j] == s.slots[j]))
            && (i.None? || s.slots[i.value] == FREE_SLOT ==> t == s)
            && (i.Some? ==>
                  forall p :: 0 <= p < |s.probes| && Some(p) != s.slots[i.value].probe ==> t.probes[p] == s.probes[p])
  {
    hide FindSlotFrom;
  }

  /** A free slot, which a search for NULL may find, is blank. */
  lemma NullBox(cfg: Config, s: State, k: Kernel)
    requires RegistryInv(cfg, s, k)
    ensures FindSlot(s.slots, NULL).Some? ==> s.slots[FindSlot(s.slots, NULL).value] == FREE_SLOT
  {
    hide Filter, ProbeId, HashName, FindSlotFrom;
  }

  lemma CreateKeepsBoxes(cfg: Config, s: State, k: Kernel, op: Op, h: Handle)
    requires op.Create? && RegistryInv(cfg, s, k) && Allowed(cfg, k, op)
    ensures if BoxOf(s, h).Some? then BoxOf(Step(cfg, s, op), h) == BoxOf(s, h)
            else BoxOf(Step(cfg, s, op), h).None? || BoxOf(Step(cfg, s, op), h) == Some(EMPTY)
  {
    var t, task, id := Step(cfg, s, op), op.task, HashName(op.name);
    if s.enabled {
      RegisterEffect(cfg, s, task, op.name, op.priority, op.env);
      if Installed(s, t, task, id, op.priority) {
        InstalledProbeOf(cfg, s, t, k, task, id, op.priority, h);
        if h == task {
          NewBox(cfg, s, t, k, task, id, op.priority);
        } else {
          PrefixKeepsBox(cfg, s, t, k, h);
        }
      } else {
        PrefixKeepsBox(cfg, s, t, k, h);
      }
      hide *;
    } else {
      hide *;
      DisabledCreate(cfg, s, op);
    }
  }

  lemma PrefixKeepsBox(cfg: Config, s: State, t: State, k: Kernel, h: Handle)
    requires RegistryInv(cfg, s, k) && |t.probes| >= |s.probes| && t.probes[..|s.probes|] == s.probes
    requires ProbeOf(t, h) == ProbeOf(s, h) && (ProbeOf(s, h).Some? ==> SlotOf(t, h) == SlotOf(s, h))
    ensures BoxOf(t, h) == BoxOf(s, h)
  {
    SlotNamesProbe(cfg, s, k, h);
    hide RegistryInv, ProbeOf, SlotOf;
    if ProbeOf(s, h).Some? {
      assert t.probes[..|s.probes|][ProbeOf(s, h).value] == t.probes[ProbeOf(s, h).value];
    }
  }

  lemma NewBox(cfg: Config, s: State, t: State, k: Kernel, task: Handle, id: bv16, priority: nat)
    requires RegistryInv(cfg, s, k) && task != NULL && task !in k.names && Installed(s, t, task, id, priority)
    ensures BoxOf(s, task).None? && (BoxOf(t, task).None? || BoxOf(t, task) == Some(EMPTY))
  {
    FreshTask(cfg, s, k, task);
    hide Filter, ProbeId, HashName, FindSlotFrom, RegistryInv;
    var n := FindSlot(s.slots, NULL).value;
    assert t.slots[n].tcb == task && FindSlot(t.slots, task) == Some(n) by {
      InstalledInOrder(cfg, s, t, k, task, id, priority);
    }
  }

  lemma StepKeepsBoxes(cfg: Config, s: State, k: Kernel, op: Op, h: Handle)
    requires RegistryInv(cfg, s, k) && Allowed(cfg, k, op)
    requires forall g :: BoxOf(s, g).Some? ==> Sendable(cfg, BoxOf(s, g).value.waiting)
    ensures match BoxOf(s, h)
            case None => BoxOf(Step(cfg, s, op), h).None? || BoxOf(Step(cfg, s, op), h) == Some(EMPTY)
            case Some(box) => h in k.names && BoxOf(Step(cfg, s, op), h) == Some(MailStep(cfg, box, k.names[h], op, h))
  {
    BoxUnfolds(cfg, s, k, h);
    hide RegistryInv, Allowed, Step, BoxOf, HasRoom, Reaches, HashName;
    if op.Deliver? {
      DeliverKeepsBoxes(cfg, s, k, op, h);
    } else if op.Process? {
      ProcessKeepsBoxes(cfg, s, k, op, h);
    } else if op.Create? {
      CreateKeepsBoxes(cfg, s, k, op, h);
    } else {
      OthersSameMail(cfg, s, op);
      SameMailSameBox(s, Step(cfg, s, op), h);
    }
  }

  // ----- The queue of one task -----

  /** The mailbox of task `h`, followed step by step from when its buffers were made. */
  ghost function Mail(cfg: Config, ops: seq<Op>, h: Handle): Mailbox {
    if ops == [] then EMPTY
    else
      var front, names := ops[..|ops| - 1], KernelRun(ops[..|ops| - 1]).names;
      if BoxOf(Run(cfg, front), h).Some? && h in names then
        MailStep(cfg, Mail(cfg, front, h), names[h], ops[|ops| - 1], h)
      else EMPTY
  }

  lemma StepKeepsSendable(cfg: Config, box: Mailbox, name: Bytes, op: Op, h: Handle)
    requires Sendable(cfg, box.waiting) && (op.Deliver? ==> |op.message| <= cfg.ioBufferSize)
    ensures Sendable(cfg, MailStep(cfg, box, name, op, h).waiting)
  {
    hide Reaches, HashName, Occupied;
  }

  lemma NothingSendable(cfg: Config)
    ensures Sendable(cfg, EMPTY.waiting)
  {
  }

  lemma {:induction false} MailSendable(cfg: Config, ops: seq<Op>, h: Handle)
    requires Legal(cfg, ops)
    ensures Sendable(cfg, Mail(cfg, ops, h).waiting)
  {
    hide BoxOf, Run, KernelRun, MailStep, Legal, Sendable;
    NothingSendable(cfg);
    if ops != [] {
      var front, op := ops[..|ops| - 1], ops[|ops| - 1];
      LastStep(cfg, ops);
      MailSendable(cfg, front, h);
      if h in KernelRun(front).names {
        StepKeepsSendable(cfg, Mail(cfg, front, h), KernelRun(front).names[h], op, h);
      }
    }
  }

  /** In every reachable state the buffer and the probe of each task hold exactly what its own queue does. */
  lemma {:induction false} BuffersAreQueues(cfg: Config, ops: seq<Op>, h: Handle)
    requires Legal(cfg, ops)
    ensures match BoxOf(Run(cfg, ops), h)
            case None => Mail(cfg, ops, h) == EMPTY
            case Some(box) => box == Mail(cfg, ops, h)
  {
    if ops == [] {
      assert FindSlot(Init(cfg).slots, h).Some? ==> h == NULL;
    } else {
      var front, op := ops[..|ops| - 1], ops[|ops| - 1];
      forall g
        ensures match BoxOf(Run(cfg, front), g)
                case None => Mail(cfg, front, g) == EMPTY
                case Some(box) => box == Mail(cfg, front, g) && Sendable(cfg, box.waiting)
      {
        BuffersAreQueues(cfg, front, g);
        MailSendable(cfg, front, g);
      }
      ReachableRegistry(cfg, front);
      hide RegistryInv, BoxOf, MailStep, Step, Allowed, KernelRun;
      StepKeepsBoxes(cfg, Run(cfg, front), KernelRun(front), op, h);
    }
  }

  // ----- Conservation -----

  /** Step `i` of the run is a message for task `h`, which has buffers by then, with room for it. */
  ghost predicate AcceptedAt(cfg: Config, ops: seq<Op>, h: Handle, i: nat)
    requires i < |ops|
  {
    var front, names := ops[..i], KernelRun(ops[..i]).names;
    BoxOf(Run(cfg, front), h).Some? && h in names && Accepts(cfg, Mail(cfg, front, h), names[h], ops[i])
  }

  /** The steps at which task `h` accepted a message. */
  ghost function Acceptances(cfg: Config, ops: seq<Op>, h: Handle): (r: seq<nat>)
    ensures forall j :: 0 <= j < |r| ==> r[j] < |ops| && ops[r[j]].Deliver?
    ensures forall i, j :: 0 <= i < j < |r| ==> r[i] < r[j]
  {
    if ops == [] then []
    else
      var front := ops[..|ops| - 1];
      Acceptances(cfg, front, h) + if AcceptedAt(cfg, ops, h, |ops| - 1) then [|ops| - 1] else []
  }

  ghost function Texts(ops: seq<Op>, at: seq<nat>): seq<Message>
    requires forall j :: 0 <= j < |at| ==> at[j] < |ops| && ops[at[j]].Deliver?
  {
    seq(|at|, j requires 0 <= j < |at| => ops[at[j]].message)
  }

  lemma {:induction false} AcceptancesComplete(cfg: Config, ops: seq<Op>, h: Handle, i: nat)
    requires i < |ops|
    ensures i in Acceptances(cfg, ops, h) <==> AcceptedAt(cfg, ops, h, i)
  {
    var front := ops[..|ops| - 1];
    hide AcceptedAt;
    if i < |ops| - 1 {
      AcceptancesComplete(cfg, front, h, i);
      SameAccepted(cfg, ops, h, i);
    } else {
      assert i !in Acceptances(cfg, front, h);
    }
  }

  lemma SameAccepted(cfg: Config, ops: seq<Op>, h: Handle, i: nat)
    requires i < |ops| - 1
    ensures AcceptedAt(cfg, ops, h, i) == AcceptedAt(cfg, ops[..|ops| - 1], h, i)
  {
    assert ops[..|ops| - 1][..i] == ops[..i];
    hide BoxOf, Run, KernelRun, Accepts, Mail;
  }

  lemma StepConserves(cfg: Config, box: Mailbox, name: Bytes, op: Op, h: Handle)
    ensures var next := MailStep(cfg, box, name, op, h);
            next.handed + next.waiting ==
            box.handed + box.waiting + if Accepts(cfg, box, name, op) then [op.message] else []
  {
    hide HasRoom, Reaches, HashName;
    if box.waiting != [] {
      assert box.waiting == [box.waiting[0]] + box.waiting[1..];
    }
  }

  lemma TextsGrow(ops: seq<Op>, at: seq<nat>)
    requires ops != [] && forall j :: 0 <= j < |at| ==> at[j] < |ops| - 1 && ops[at[j]].Deliver?
    ensures Texts(ops, at) == Texts(ops[..|ops| - 1], at)
    ensures ops[|ops| - 1].Deliver? ==> Texts(ops, at + [|ops| - 1]) == Texts(ops, at) + [ops[|ops| - 1].message]
  {
  }

  lemma NoBoxNoMail(cfg: Config, ops: seq<Op>, h: Handle)
    requires Legal(cfg, ops) && BoxOf(Run(cfg, ops), h).None?
    ensures Mail(cfg, ops, h) == EMPTY
  {
    BuffersAreQueues(cfg, ops, h);
    hide *;
  }

  /** One more step adds to the mailbox what is accepted at it. */
  lemma MailGrows(cfg: Config, ops: seq<Op>, h: Handle)
    requires ops != [] && Legal(cfg, ops)
    ensures var was, now := Mail(cfg, ops[..|ops| - 1], h), Mail(cfg, ops, h);
            now.handed + now.waiting ==
            was.handed + was.waiting + if AcceptedAt(cfg, ops, h, |ops| - 1) then [ops[|ops| - 1].message] else []
  {
    var front := ops[..|ops| - 1];
    var names := KernelRun(front).names;
    hide BoxOf, Run, KernelRun, Legal, Accepts, MailStep;
    if BoxOf(Run(cfg, front), h).None? {
      NoBoxNoMail(cfg, front, h);
    } else if h in names {
      StepConserves(cfg, Mail(cfg, front, h), names[h], ops[|ops| - 1], h);
    } else {
      KnownBox(cfg, front, h);
    }
  }

  lemma KnownBox(cfg: Config, ops: seq<Op>, h: Handle)
    requires Legal(cfg, ops) && BoxOf(Run(cfg, ops), h).Some?
    ensures h in KernelRun(ops).names
  {
    hide BoxOf, Run, KernelRun, Legal, RegistryInv;
    ReachableRegistry(cfg, ops);
    BoxUnfolds(cfg, Run(cfg, ops), KernelRun(ops), h);
  }

  lemma {:induction false} MailIsAccepted(cfg: Config, ops: seq<Op>, h: Handle)
    requires Legal(cfg, ops)
    ensures Mail(cfg, ops, h).handed + Mail(cfg, ops, h).waiting == Texts(ops, Acceptances(cfg, ops, h))
  {
    if ops == [] {
    } else {
      MailIsAccepted(cfg, ops[..|ops| - 1], h);
      MailGrows(cfg, ops, h);
      TextsGrow(ops, Acceptances(cfg, ops[..|ops| - 1], h));
      hide Mail, AcceptedAt, Texts, Legal;
    }
  }

  /**
   * Conservation and order: in every reachable state what a task's probe was handed, followed by what its
   * buffer still holds, is the sequence of the messages it accepted, which are those read by the IO task
   * while the task had buffers, addressed to all or to the id of its name, that found room.
   */
  lemma MessagesAreConserved(cfg: Config, ops: seq<Op>, h: Handle)
    requires Legal(cfg, ops) && BoxOf(Run(cfg, ops), h).Some?
    ensures var box, at := BoxOf(Run(cfg, ops), h).value, Acceptances(cfg, ops, h);
            && box.handed + box.waiting == Texts(ops, at)
            && forall i :: 0 <= i < |ops| ==> (i in at <==> AcceptedAt(cfg, ops, h, i))
  {
    hide *;
    BuffersAreQueues(cfg, ops, h);
    MailIsAccepted(cfg, ops, h);
    forall i | 0 <= i < |ops|
      ensures i in Acceptances(cfg, ops, h) <==> AcceptedAt(cfg, ops, h, i)
    {
      AcceptancesComplete(cfg, ops, h, i);
    }
  }

  /**
   * A search for NULL finds a free slot, but free slots are blank: before any task runs, or for a task
   * without buffers, there is no buffer to get and processing does nothing.
   */
  lemma NoBuffersNoEffect(cfg: Config, ops: seq<Op>, task: Handle, ok: bool)
    requires Legal(cfg, ops) && (task == NULL || BoxOf(Run(cfg, ops), task).None?)
    ensures ControlPlaneBuffer(Run(cfg, ops), task) == None
    ensures ProcessMessages(cfg, Run(cfg, ops), task, ok) == Run(cfg, ops)
  {
    var s, k := Run(cfg, ops), KernelRun(ops);
    ReachableRegistry(cfg, ops);
    BoxUnfolds(cfg, s, k, task);
    NullBox(cfg, s, k);
    hide Run, KernelRun, Legal, RegistryInv, FindSlot, BoxOf;
  }

  // ----- Messages that are too long -----

  ghost predicate Blocked(cfg: Config, box: Mailbox) {
    box.waiting != [] && |box.waiting[0]| > cfg.taskBufferSize
  }

  lemma HeadStays(box: Mailbox, next: Mailbox)
    requires box.waiting != [] && next.waiting == box.waiting[1..]
    ensures next != box
  {
    assert |next.waiting| != |box.waiting|;
  }

  lemma ProcessUnchanged(cfg: Config, s: State, k: Kernel, h: Handle, ok: bool)
    requires RegistryInv(cfg, s, k) && BoxOf(s, h).Some?
    requires BoxOf(s, h).value.waiting == [] || Blocked(cfg, BoxOf(s, h).value)
    ensures ProcessMessages(cfg, s, h, ok) == s
  {
    hide RegistryInv, FindSlotFrom;
  }

  /**
   * In every reachable state processing by a task changes nothing at all exactly when its buffer is empty or
   * holds as its oldest message one that is longer than the task's own buffer.
   */
  lemma ProcessingStuckIffBlocked(cfg: Config, ops: seq<Op>, h: Handle, ok: bool)
    requires Legal(cfg, ops) && BoxOf(Run(cfg, ops), h).Some?
    ensures var box := BoxOf(Run(cfg, ops), h).value;
            ProcessMessages(cfg, Run(cfg, ops), h, ok) == Run(cfg, ops) <==> box.waiting == [] || Blocked(cfg, box)
  {
    hide Legal, Run, KernelRun, RegistryInv, BoxOf, ProcessMessages, Sendable;
    var s, k, box := Run(cfg, ops), KernelRun(ops), BoxOf(Run(cfg, ops), h).value;
    ReachableRegistry(cfg, ops);
    if box.waiting == [] || Blocked(cfg, box) {
      ProcessUnchanged(cfg, s, k, h, ok);
    } else {
      BuffersAreQueues(cfg, ops, h);
      MailSendable(cfg, ops, h);
      OwnProcess(cfg, s, k, h, ok);
      HeadStays(box, TakeHead(cfg, box));
    }
  }

  /** One more step of a run does to a task's mailbox what `MailStep` says. */
  lemma BoxNext(cfg: Config, ops: seq<Op>, op: Op, h: Handle)
    requires Legal(cfg, ops) && Allowed(cfg, KernelRun(ops), op) && BoxOf(Run(cfg, ops), h).Some?
    ensures h in KernelRun(ops).names
    ensures BoxOf(Run(cfg, ops + [op]), h) ==
            Some(MailStep(cfg, BoxOf(Run(cfg, ops), h).value, KernelRun(ops).names[h], op, h))
  {
    assert (ops + [op])[..|ops|] == ops;
    hide BoxOf, KernelRun, Legal, RegistryInv, Allowed, Step, MailStep;
    ReachableRegistry(cfg, ops);
    forall g
      ensures BoxOf(Run(cfg, ops), g).Some? ==> Sendable(cfg, BoxOf(Run(cfg, ops), g).value.waiting)
    {
      BuffersAreQueues(cfg, ops, g);
      MailSendable(cfg, ops, g);
    }
    StepKeepsBoxes(cfg, Run(cfg, ops), KernelRun(ops), op, h);
  }

  /** In every continuation of a run whose buffer for a task is blocked, that task's probe is handed nothing more. */
  lemma {:induction false} BlockedForEver(cfg: Config, ops: seq<Op>, more: seq<Op>, h: Handle)
    requires Legal(cfg, ops + more) && BoxOf(Run(cfg, ops), h).Some? && Blocked(cfg, BoxOf(Run(cfg, ops), h).value)
    ensures BoxOf(Run(cfg, ops + more), h).Some?
    ensures var was, now := BoxOf(Run(cfg, ops), h).value, BoxOf(Run(cfg, ops + more), h).value;
            now.handed == was.handed && was.waiting <= now.waiting
  {
    if more == [] {
      assert ops + more == ops;
    } else {
      hide BoxOf, Run, KernelRun, Legal, Accepts, Step, Allowed;
      var rest, op := more[..|more| - 1], more[|more| - 1];
      RunContinues(cfg, ops, more);
      BlockedForEver(cfg, ops, rest, h);
      BoxNext(cfg, ops + rest, op, h);
    }
  }

  /** Every message that can reach a task's buffer fits the task's own buffer. */
  predicate MessagesFit(cfg: Config) {
    cfg.ioBufferSize <= cfg.taskBufferSize || cfg.messageBufferSize <= cfg.taskBufferSize + cfg.lengthPrefix
  }

  /** Then no buffer is ever blocked. */
  lemma NeverBlocked(cfg: Config, ops: seq<Op>, h: Handle)
    requires MessagesFit(cfg) && Legal(cfg, ops) && BoxOf(Run(cfg, ops), h).Some?
    ensures !Blocked(cfg, BoxOf(Run(cfg, ops), h).value)
  {
    hide BoxOf, Run, KernelRun, Legal, Mail;
    BuffersAreQueues(cfg, ops, h);
    MailSendable(cfg, ops, h);
  }

  /** Otherwise the next message the IO task reads may block an empty buffer. */
  lemma OneMessageBlocks(cfg: Config, ops: seq<Op>, h: Handle) returns (op: Op)
    requires !MessagesFit(cfg) && Legal(cfg, ops)
    requires BoxOf(Run(cfg, ops), h).Some? && BoxOf(Run(cfg, ops), h).value.waiting == []
    ensures op.Deliver? && Legal(cfg, ops + [op]) && BoxOf(Run(cfg, ops + [op]), h).Some?
    ensures Blocked(cfg, BoxOf(Run(cfg, ops + [op]), h).value)
  {
    var m: Message := seq(cfg.taskBufferSize + 1, _ => 0);
    op := Deliver(m, Some(Broadcast));
    assert (ops + [op])[..|ops|] == ops;
    assert HasRoom(cfg, [], m);
    hide BoxOf, Run, KernelRun, HasRoom, HashName;
    BoxNext(cfg, ops, op, h);
  }

  /** With no other task running, a task works off its messages until one is too long, or until the next one may be. */
  lemma {:induction false} WorkOffUntilBlocked(cfg: Config, ops: seq<Op>, h: Handle) returns (more: seq<Op>)
    requires !MessagesFit(cfg) && Legal(cfg, ops) && BoxOf(Run(cfg, ops), h).Some?
    requires KernelRun(ops).running == NULL || KernelRun(ops).running == h
    ensures Legal(cfg, ops + more) && BoxOf(Run(cfg, ops + more), h).Some?
    ensures Blocked(cfg, BoxOf(Run(cfg, ops + more), h).value)
    decreases |BoxOf(Run(cfg, ops), h).value.waiting|
  {
    hide BoxOf, Run, KernelRun, Legal, MessagesFit, HasRoom, Reaches, HashName;
    var box := BoxOf(Run(cfg, ops), h).value;
    if Blocked(cfg, box) {
      more := [];
      assert ops + more == ops;
    } else if box.waiting == [] {
      var op := OneMessageBlocks(cfg, ops, h);
      more := [op];
    } else {
      var op := Process(h, true);
      RunExtends(cfg, ops, op);
      BoxNext(cfg, ops, op, h);
      var rest := WorkOffUntilBlocked(cfg, ops + [op], h);
      more := [op] + rest;
      assert ops + [op] + rest == ops + more;
    }
  }

  /** Before that, the task that runs is switched out, if it is another one. */
  lemma BlockedAfterSwitch(cfg: Config, ops: seq<Op>, h: Handle) returns (more: seq<Op>)
    requires !MessagesFit(cfg) && Legal(cfg, ops) && BoxOf(Run(cfg, ops), h).Some?
    ensures Legal(cfg, ops + more) && BoxOf(Run(cfg, ops + more), h).Some?
    ensures Blocked(cfg, BoxOf(Run(cfg, ops + more), h).value)
  {
    hide BoxOf, Run, KernelRun, Legal, MessagesFit, Blocked, Accepts;
    var running := KernelRun(ops).running;
    if running == NULL || running == h {
      more := WorkOffUntilBlocked(cfg, ops, h);
    } else {
      var op := SwitchedOut(running, true, true);
      RunExtends(cfg, ops, op);
      BoxNext(cfg, ops, op, h);
      var rest := WorkOffUntilBlocked(cfg, ops + [op], h);
      more := [op] + rest;
      assert ops + [op] + rest == ops + more;
    }
  }

  /** So whether the buffer of any task can become blocked, from any reachable state, depends on the sizes alone. */
  lemma BlockableIffMessagesDoNotFit(cfg: Config, ops: seq<Op>, h: Handle)
    requires Legal(cfg, ops) && BoxOf(Run(cfg, ops), h).Some?
    ensures (exists more: seq<Op> :: Legal(cfg, ops + more) && BoxOf(Run(cfg, ops + more), h).Some?
                                     && Blocked(cfg, BoxOf(Run(cfg, ops + more), h).value))
            <==> !MessagesFit(cfg)
  {
    hide *;
    if !MessagesFit(cfg) {
      var more := BlockedAfterSwitch(cfg, ops, h);
      assert Legal(cfg, ops + more);
    }
    forall more: seq<Op> | MessagesFit(cfg) && Legal(cfg, ops + more) && BoxOf(Run(cfg, ops + more), h).Some?
      ensures !Blocked(cfg, BoxOf(Run(cfg, ops + more), h).value)
    {
      NeverBlocked(cfg, ops + more, h);
    }
  }
}
