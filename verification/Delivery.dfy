/** The control plane call by call: which tasks have buffers, who gets a message, and what a task is given. */
module Delivery {
  import opened ControlPlane
  import opened Options
  import opened ProbeIdHash
  import opened Registration
  import opened Registry
  import opened Runs
  import opened Trace

  // ----- Room -----

  function TotalSize(messages: seq<Message>): nat {
    if messages == [] then 0 else |messages[0]| + TotalSize(messages[1..])
  }

  /** The messages fit a message buffer together. */
  predicate Fits(cfg: Config, messages: seq<Message>) {
    TotalSize(messages) + |messages| * cfg.lengthPrefix <= cfg.messageBufferSize
  }

  lemma {:induction false} TotalSizeAppend(messages: seq<Message>, m: Message)
    ensures TotalSize(messages + [m]) == TotalSize(messages) + |m|
  {
    if messages == [] {
      assert messages + [m] == [m];
    } else {
      TotalSizeAppend(messages[1..], m);
      assert (messages + [m])[1..] == messages[1..] + [m];
    }
  }

  lemma {:induction false} OccupiedIs(cfg: Config, messages: seq<Message>)
    ensures Occupied(cfg, messages) == TotalSize(messages) + |messages| * cfg.lengthPrefix
  {
    if messages != [] {
      var front, last := messages[..|messages| - 1], messages[|messages| - 1];
      OccupiedIs(cfg, front);
      TotalSizeAppend(front, last);
      assert front + [last] == messages;
      OneMore(|front|, cfg.lengthPrefix);
    }
  }

  lemma OneMore(n: nat, k: nat)
    ensures (n + 1) * k == n * k + k
  {
  }

  /** A message buffer has room for one more message exactly as long as all of them fit it. */
  lemma RoomIsFit(cfg: Config, messages: seq<Message>, m: Message)
    ensures HasRoom(cfg, messages, m) <==> Fits(cfg, messages + [m])
  {
    OccupiedIs(cfg, messages);
    TotalSizeAppend(messages, m);
    OneMore(|messages|, cfg.lengthPrefix);
  }

  // ----- Messages the IO task reads -----

  lemma ReachesOnly(to: Option<Destination>, id: bv16)
    ensures to.Some? && Reaches(to.value, id) <==> to == Some(Broadcast) || to == Some(ToProbe(id as bv32))
  {
    match to
    case Some(ToProbe(d)) =>
    case _ =>
  }

  /**
   * In every legal run, a message the IO task has read is added to the mailbox of a task exactly when it is not
   * empty, is for every probe or for the id that the task's name hashes to, and fits with those still waiting.
   * Every other mailbox stays as it is.
   */
  lemma DeliveryIsExact(cfg: Config, ops: seq<Op>, m: Message, to: Option<Destination>, h: Handle)
    requires Legal(cfg, ops) && |m| <= cfg.ioBufferSize && BoxOf(Run(cfg, ops), h).Some?
    ensures h in KernelRun(ops).names
    ensures var box, id := BoxOf(Run(cfg, ops), h).value, HashName(KernelRun(ops).names[h]);
            var arrives := && m != [] && (to == Some(Broadcast) || to == Some(ToProbe(id as bv32)))
                           && Fits(cfg, box.waiting + [m]);
            BoxOf(Run(cfg, ops + [Deliver(m, to)]), h) ==
            Some(if arrives then Mailbox(box.handed, box.waiting + [m]) else box)
  {
    hide BoxOf, Run, KernelRun, Legal, HashName, HasRoom, Fits;
    BoxNext(cfg, ops, Deliver(m, to), h);
    RoomIsFit(cfg, BoxOf(Run(cfg, ops), h).value.waiting, m);
    ReachesOnly(to, HashName(KernelRun(ops).names[h]));
  }

  // ----- Which tasks have buffers -----

  /** Blank slots are not in use, so a new task gets the first of them to itself. */
  lemma PutFinds(slots: seq<Slot>, slot: Slot)
    requires FindSlot(slots, slot.tcb).None? && FindSlot(slots, NULL).Some?
    ensures FindSlot(slots[FindSlot(slots, NULL).value := slot], slot.tcb) == FindSlot(slots, NULL)
  {
    hide FindSlotFrom;
    var i := FindSlot(slots, NULL).value;
    var after := slots[i := slot];
    assert after[i] == slot;
    assert forall j :: 0 <= j < |slots| && j != i ==> after[j] == slots[j];
  }

  lemma SlotOfNewTask(cfg: Config, s: State, task: Handle, name: Bytes, priority: nat, env: CreateEnv)
    requires task != NULL && !Traced(s, task) && SlotsInOrder(s.slots)
    requires Traced(Register(cfg, s, task, name, priority, env), task)
    ensures s.enabled && Fills(cfg, s, name, env)
    ensures var t := Register(cfg, s, task, name, priority, env);
            && FailsWith(s, t, FirstFailure(cfg, s, name, env))
            && BoxOf(t, task) == if GetsBuffers(cfg, env) then Some(EMPTY) else None
  {
    var t, p := Register(cfg, s, task, name, priority, env), |s.probes|;
    if s.enabled {
      RegistrationIsExact(cfg, s, task, name, priority, env);
      hide Register, FindSlotFrom, Filter, ProbeId, HashName, StorageFor, SlotsInOrder;
      if Fills(cfg, s, name, env) {
        PutFinds(s.slots, t.slots[FindSlot(s.slots, NULL).value]);
        assert t.probes[p].control == [];
        hide FindSlot;
      }
    }
  }

  /**
   * In every legal run, a task that is traced after its creation has buffers, and they are empty, exactly when the
   * control plane is there and both buffers could be had. If one could not, the creation has recorded that.
   */
  lemma NewTaskHasBuffers(cfg: Config, ops: seq<Op>, op: Op)
    requires Legal(cfg, ops) && op.Create? && Allowed(cfg, KernelRun(ops), op)
    requires Traced(Run(cfg, ops + [op]), op.task)
    ensures var s, t, env := Run(cfg, ops), Run(cfg, ops + [op]), op.env;
            && BoxOf(t, op.task) ==
               (if cfg.controlPlane && env.messageBuffer && env.taskBuffer then Some(Mailbox([], [])) else None)
            && (cfg.controlPlane && !(env.messageBuffer && env.taskBuffer) ==>
                  && !t.enabled
                  && t.error == if s.error.Some? then s.error
                                else Some(if env.messageBuffer then NoTaskBuffer else NoMessageBuffer))
  {
    var s, k := Run(cfg, ops), KernelRun(ops);
    RunExtends(cfg, ops, op);
    ReachableRegistry(cfg, ops);
    FreshTask(cfg, s, k, op.task);
    assert SlotsInOrder(s.slots);
    assert Step(cfg, s, op) == Register(cfg, s, op.task, op.name, op.priority, op.env) by {
      hide Register;
    }
    EmptyIsZero(op.name);
    hide Run, KernelRun, Legal, RegistryInv, Step, Traced, BoxOf, SlotsInOrder, HashName, HashedLength, StorageFor;
    SlotOfNewTask(cfg, s, op.task, op.name, op.priority, op.env);
  }

  // ----- What a task is given -----

  /** In every legal run a task that has buffers is given its own, with the messages that wait in it. */
  lemma GetsOwnBuffer(cfg: Config, ops: seq<Op>, h: Handle)
    requires Legal(cfg, ops) && BoxOf(Run(cfg, ops), h).Some?
    ensures ControlPlaneBuffer(Run(cfg, ops), h) == Some(BoxOf(Run(cfg, ops), h).value.waiting)
  {
    hide Run, Legal, FindSlot;
  }

  lemma ProcessErrors(cfg: Config, s: State, h: Handle, ok: bool)
    requires BoxOf(s, h).Some? && SlotOf(s, h).hasTaskBuffer && Sendable(cfg, BoxOf(s, h).value.waiting)
    ensures var t, waiting := ProcessMessages(cfg, s, h, ok), BoxOf(s, h).value.waiting;
            var fails := waiting != [] && |waiting[0]| <= cfg.taskBufferSize && !ok;
            && t.enabled == (s.enabled && !fails) && t.raises == s.raises + (if fails then 1 else 0)
            && t.error == if s.error.None? && fails then Some(ControlMessageFailed) else s.error
  {
    hide FindSlot;
  }

  /**
   * In every legal run, processing by a task takes its oldest message, if that fits the task's own buffer, and hands
   * it to the task's probe; and the one error there is in it is the probe's refusal of a message it was handed.
   */
  lemma ProcessingIsExact(cfg: Config, ops: seq<Op>, h: Handle, ok: bool)
    requires Legal(cfg, ops) && Allowed(cfg, KernelRun(ops), Process(h, ok)) && BoxOf(Run(cfg, ops), h).Some?
    ensures var s, t, box := Run(cfg, ops), Run(cfg, ops + [Process(h, ok)]), BoxOf(Run(cfg, ops), h).value;
            var takes := box.waiting != [] && |box.waiting[0]| <= cfg.taskBufferSize;
            && BoxOf(t, h) ==
               Some(if takes then Mailbox(box.handed + [box.waiting[0]], box.waiting[1..]) else box)
            && t.enabled == (s.enabled && !(takes && !ok)) && t.raises == s.raises + (if takes && !ok then 1 else 0)
            && t.error == if s.error.None? && takes && !ok then Some(ControlMessageFailed) else s.error
  {
    var s, op := Run(cfg, ops), Process(h, ok);
    ReachableRegistry(cfg, ops);
    hide Run, KernelRun, Legal, RegistryInv, BoxOf, Step, Allowed, SlotOf, Traced, HashName, Sendable, Mail;
    BoxUnfolds(cfg, s, KernelRun(ops), h);
    BuffersAreQueues(cfg, ops, h);
    MailSendable(cfg, ops, h);
    ProcessStep(cfg, s, h, ok);
    hide ProcessMessages;
    RunExtends(cfg, ops, op);
    BoxNext(cfg, ops, op, h);
    ProcessErrors(cfg, s, h, ok);
  }

  lemma ProcessStep(cfg: Config, s: State, h: Handle, ok: bool)
    ensures Step(cfg, s, Process(h, ok)) == ProcessMessages(cfg, s, h, ok)
  {
    hide ProcessMessages;
  }
}
