// Semaphore and port actions, and the invariant over whole runs.
module MachineRuns {
  import opened Scheduler
  import opened SchedulerInv
  import opened Machine
  import opened MachineInv
  import opened MachineSteps
  import opened MachineTimers

  lemma NestOf(s: State)
    requires KInv(s)
    ensures s.core.nest >= -1
  {}

  // -- Semaphores --

  lemma SemsStep(s: State, m: SemId, sem: Semaphore)
    requires KInv(s) && m < |s.sems| && SemOk(sem, |s.core.tasks|)
    ensures KInv(s.(sems := s.sems[m := sem]))
  {}

  lemma AddRequestKeeps(m: Semaphore, req: Request, tasks: nat)
    requires SemOk(m, tasks) && req.waiter < tasks
    ensures SemOk(AddRequest(m, req), tasks)
  {
    assert m.woken + (m.queue + [req]) == (m.woken + m.queue) + [req];
  }

  lemma SignalSemKeeps(m: Semaphore, tasks: nat)
    requires SemOk(m, tasks)
    requires m.count + 1 < 0 ==> Dequeued(m).Some?
    ensures SemOk(SignalSem(m), tasks)
    ensures m.count + 1 < 0 ==> Dequeued(m).value.waiter < tasks
  {
    if m.count + 1 < 0 {
      assert m.woken + m.queue == (m.woken + [m.queue[0]]) + m.queue[1..];
    }
  }

  lemma SemInitStep(s: State, count: int)
    requires KInv(s)
    ensures KInv(s.(sems := s.sems + [NewSem(count)]))
  {
    assert SemOk(NewSem(count), |s.core.tasks|);
  }

  lemma SemWaitStep(s: State, m: SemId)
    requires KInv(s) && Linked(s) && Enabled(s, SemWait(m))
    ensures KInv(ApplySem(s, SemWait(m)))
  {
    AtUserIdle(s);
    var req := Request(Me(s), SIGF_SINGLE);
    assert SemOk(s.sems[m], |s.core.tasks|);
    AddRequestKeeps(s.sems[m], req, |s.core.tasks|);
    SemsStep(s, m, AddRequest(s.sems[m], req));
    var s1 := s.(sems := s.sems[m := AddRequest(s.sems[m], req)]);
    KInvIsOthers(s1);
    if s1.sems[m].count < 0 {
      var s2 := SetCall(s1, InSem(m, s.core.nest, true));
      OthersFrame(s1, s2);
      KInvIsOthers(s2);
    }
  }

  lemma SemSignalStep(s: State, irq: bool, m: SemId)
    requires KInv(s) && Linked(s) && Enabled(s, SemSignal(irq, m)) && Private(s, SemSignal(irq, m))
    ensures KInv(ApplySem(s, SemSignal(irq, m)))
  {
    assert SemOk(s.sems[m], |s.core.tasks|);
    SignalSemKeeps(s.sems[m], |s.core.tasks|);
    SemsStep(s, m, SignalSem(s.sems[m]));
    var s1 := s.(sems := s.sems[m := SignalSem(s.sems[m])]);
    if Dequeued(s.sems[m]).Some? {
      var req := Dequeued(s.sems[m]).value;
      if req.waiter < |s.calls| && s.calls[req.waiter].InTimer? {
        assert Sent(s, SemSignal(irq, m), req.waiter, s.calls[req.waiter].timer) == req.signal;
      }
      SendStep(s1, req.waiter, req.signal);
    }
  }

  // -- Ports --

  // Calls read a port's owner and signal; a blocked owner's port must stay empty.
  lemma PortsStep(s: State, ports: seq<Port>)
    requires KInv(s) && |ports| >= |s.ports| && PortsOk(|s.core.tasks|, ports)
    requires forall p :: 0 <= p < |s.ports| ==> ports[p].owner == s.ports[p].owner && ports[p].signal == s.ports[p].signal
    requires forall t :: 0 <= t < |s.calls| ==> BlockedOk(t, s.core.tasks[t], s.calls[t], ports)
    ensures KInv(s.(ports := ports))
  {
    KInvIsOthers(s);
    var s' := s.(ports := ports);
    forall t | 0 <= t < |s.calls| ensures TaskLinked(s', t) {
      assert TaskLinked(s, t);
    }
    KInvIsOthers(s');
  }

  lemma PortInitStep(s: State)
    requires KInv(s) && Linked(s) && Enabled(s, PortInit)
    ensures KInv(ApplyPort(s, PortInit))
  {
    AllocateStep(s, -1);
    var s1 := s.(core := Allocate(s.core, -1));
    var s' := ApplyPort(s, PortInit);
    forall t | 0 <= t < |s1.calls| ensures BlockedOk(t, s1.core.tasks[t], s1.calls[t], s'.ports) {
      assert BlockedOk(t, s1.core.tasks[t], s1.calls[t], s.ports);
      assert CallLinked(s1.calls[t], t, s1.core.tasks[t], s1.timers, s1.ports);
    }
    PortsStep(s1, s'.ports);
  }

  lemma PortConfigureStep(s: State, p: PortId, owner: Option<TaskId>, action: PortAction)
    requires KInv(s) && Linked(s) && Enabled(s, PortConfigure(p, owner, action))
    ensures KInv(ApplyPort(s, PortConfigure(p, owner, action)))
  {
    var s' := ApplyPort(s, PortConfigure(p, owner, action));
    assert PortOk(s.ports[p], |s.core.tasks|);
    forall t | 0 <= t < |s.calls| ensures BlockedOk(t, s.core.tasks[t], s.calls[t], s'.ports) {
      assert BlockedOk(t, s.core.tasks[t], s.calls[t], s.ports);
      assert CallLinked(s.calls[t], t, s.core.tasks[t], s.timers, s.ports);
    }
    PortsStep(s, s'.ports);
  }

  lemma GetMessageKeeps(p: Port, tasks: nat)
    requires PortOk(p, tasks)
    ensures PortOk(GetMessage(p), tasks)
  {
    if p.queue != [] {
      assert p.taken + p.queue == (p.taken + [p.queue[0]]) + p.queue[1..];
    }
  }

  lemma PortGetStep(s: State, p: PortId)
    requires KInv(s) && p < |s.ports|
    ensures KInv(s.(ports := s.ports[p := GetMessage(s.ports[p])]))
  {
    var ports := s.ports[p := GetMessage(s.ports[p])];
    assert PortOk(s.ports[p], |s.core.tasks|);
    GetMessageKeeps(s.ports[p], |s.core.tasks|);
    forall t | 0 <= t < |s.calls| ensures BlockedOk(t, s.core.tasks[t], s.calls[t], ports) {
      assert BlockedOk(t, s.core.tasks[t], s.calls[t], s.ports);
    }
    PortsStep(s, ports);
  }

  lemma PortWaitStep(s: State, p: PortId)
    requires KInv(s) && AtUser(s) && p < |s.ports| && s.ports[p].owner == Me(s) != INIT
    ensures Sane(s) && KInv(PortLoop(SetCall(s.(core := s.core.(nest := s.core.nest + 1)), InPort(p, s.core.nest)), p))
  {
    AtUserIdle(s);
    KInvIsOthers(s);
    NestOf(s);
    NestKeeps(s.core, s.core.nest + 1);
    var s1 := SetCall(s.(core := s.core.(nest := s.core.nest + 1)), InPort(p, s.core.nest));
    OthersFrame(s, s1);
    PortLoopStep(s1, p, s.core.nest);
  }

  // A message sent to a port that signals its blocked owner wakes it.
  lemma PortSendUnblocks(s: State, p: PortId, msg: Message, t: TaskId)
    requires KInv(s) && Linked(s) && p < |s.ports| && Signals?(s.ports[p]) && t < |s.calls|
    ensures var c := Send(s.core, s.ports[p].task.value, s.ports[p].signal);
      t < |c.tasks| && BlockedOk(t, c.tasks[t], s.calls[t], s.ports[p := PutMessage(s.ports[p], msg)])
  {
    var x, sig := s.ports[p].task.value, s.ports[p].signal;
    SendGentle(s.core, x, sig);
    assert GentleTask(s.core.tasks[t], Send(s.core, x, sig).tasks[t], t == Me(s), if t == x then sig else {});
    assert BlockedOk(t, s.core.tasks[t], s.calls[t], s.ports);
    assert CallLinked(s.calls[t], t, s.core.tasks[t], s.timers, s.ports);
    assert CallOk(s.calls[t], t, s.core.tasks[t], t == Me(s), s.core.nest);
    assert TaskOk(s.core.tasks[t]);
    assert sig * sig == sig;
  }

  lemma PutMessageKeeps(p: Port, msg: Message, tasks: nat)
    requires PortOk(p, tasks)
    ensures PortOk(PutMessage(p, msg), tasks)
  {
    assert p.taken + (p.queue + [msg]) == (p.taken + p.queue) + [msg];
  }

  lemma PortSendSilent(s: State, p: PortId, msg: Message)
    requires KInv(s) && p < |s.ports| && !Signals?(s.ports[p])
    ensures KInv(s.(ports := s.ports[p := PutMessage(s.ports[p], msg)]))
  {
    assert PortOk(s.ports[p], |s.core.tasks|);
    PutMessageKeeps(s.ports[p], msg, |s.core.tasks|);
    var ports := s.ports[p := PutMessage(s.ports[p], msg)];
    forall t | 0 <= t < |s.calls| ensures BlockedOk(t, s.core.tasks[t], s.calls[t], ports) {
      assert BlockedOk(t, s.core.tasks[t], s.calls[t], s.ports);
    }
    PortsStep(s, ports);
  }

  lemma PortSendSignalling(s: State, p: PortId, msg: Message)
    requires KInv(s) && Linked(s) && p < |s.ports| && Signals?(s.ports[p])
    requires Unmixed(s.calls, s.timers, s.ports[p].task.value, s.ports[p].signal)
    ensures KInv(s.(core := Send(s.core, s.ports[p].task.value, s.ports[p].signal),
                    ports := s.ports[p := PutMessage(s.ports[p], msg)]))
  {
    assert PortOk(s.ports[p], |s.core.tasks|);
    PutMessageKeeps(s.ports[p], msg, |s.core.tasks|);
    var ports := s.ports[p := PutMessage(s.ports[p], msg)];
    var s1 := s.(core := Send(s.core, s.ports[p].task.value, s.ports[p].signal));
    SendStep(s, s.ports[p].task.value, s.ports[p].signal);
    forall t | 0 <= t < |s.calls| ensures BlockedOk(t, s1.core.tasks[t], s1.calls[t], ports) {
      PortSendUnblocks(s, p, msg, t);
    }
    PortsStep(s1, ports);
  }

  lemma PortSendStep(s: State, irq: bool, p: PortId, msg: Message)
    requires KInv(s) && Linked(s) && Enabled(s, PortSend(irq, p, msg)) && Private(s, PortSend(irq, p, msg))
    ensures KInv(ApplyPort(s, PortSend(irq, p, msg)))
  {
    if Signals?(s.ports[p]) {
      var x := s.ports[p].task.value;
      if s.calls[x].InTimer? {
        assert Sent(s, PortSend(irq, p, msg), x, s.calls[x].timer) == s.ports[p].signal;
      }
      PortSendSignalling(s, p, msg);
    } else {
      PortSendSilent(s, p, msg);
    }
  }

  // -- Every action --

  lemma TaskActionStep(s: State, a: Action)
    requires KInv(s) && Linked(s) && Enabled(s, a) && Private(s, a)
    requires TaskAction(a)
    ensures KInv(ApplyTask(s, a))
  {
    KInvIsOthers(s);
    match a
    case Disable => NestOf(s); NestStep(s, s.core.nest + 1);
    case Enable => NestStep(s, s.core.nest - 1);
    case TaskInit(prio) => TaskInitStep(s, prio);
    case TaskSchedule(t) => ScheduleStep(s, t);
    case TaskSetPrio(t, prio) => SetPrioStep(s, t, prio);
    case SignalAllocate(n) => AllocateStep(s, n);
    case SignalFree(sigs) => FreeStep(s, sigs);
    case SignalWait(sigs) => NestOf(s); AtUserIdle(s); WaitCallStep(s, sigs, InWait(s.core.nest));
    case SignalSend(irq, t, sigs) =>
      if s.calls[t].InTimer? { assert Sent(s, a, t, s.calls[t].timer) == sigs; }
      SendStep(s, t, sigs);
  }

  lemma SemActionStep(s: State, a: Action)
    requires KInv(s) && Linked(s) && Enabled(s, a) && Private(s, a)
    requires SemAction(a)
    ensures KInv(ApplySem(s, a))
  {
    match a
    case SemInit(count) => SemInitStep(s, count);
    case SemAddRequest(m, req) =>
      assert SemOk(s.sems[m], |s.core.tasks|);
      AddRequestKeeps(s.sems[m], req, |s.core.tasks|);
      SemsStep(s, m, AddRequest(s.sems[m], req));
    case SemWait(m) => SemWaitStep(s, m);
    case SemSignal(irq, m) => SemSignalStep(s, irq, m);
  }

  lemma PortActionStep(s: State, a: Action)
    requires KInv(s) && Linked(s) && Enabled(s, a) && Private(s, a)
    requires MsgAction(a)
    ensures KInv(ApplyPort(s, a))
  {
    if a.PortSend? {
      PortSendStep(s, a.irq, a.port, a.msg);
    } else if a.PortWait? {
      PortWaitAction(s, a.port);
    } else {
      PortOtherStep(s, a);
    }
  }

  lemma PortWaitAction(s: State, p: PortId)
    requires KInv(s) && Linked(s) && Enabled(s, PortWait(p))
    ensures KInv(ApplyPort(s, PortWait(p)))
  {
    PortWaitStep(s, p);
  }

  lemma PortOtherStep(s: State, a: Action)
    requires KInv(s) && Linked(s) && Enabled(s, a)
    requires a.PortInit? || a.PortConfigure? || a.PortGet?
    ensures KInv(ApplyPort(s, a))
  {
    match a
    case PortInit => PortInitStep(s);
    case PortConfigure(p, owner, action) => PortConfigureStep(s, p, owner, action);
    case PortGet(p) => PortGetStep(s, p);
  }

  lemma TimerActionStep(s: State, a: Action)
    requires KInv(s) && Linked(s) && Enabled(s, a)
    requires TimerAction(a)
    ensures KInv(ApplyTimer(s, a))
  {
    match a
    case TimerAllocate => TimerAllocateStep(s);
    case TimerAdd(tm, op, value) => TimerAddStep(s, tm, op, value);
    case TimerAbort(tm) => TimerAbortStep(s, tm);
    case TimerFree(tm) => TimerFreeStep(s, tm);
    case TimerDelay(ticks) => TimerDelayStep(s, ticks);
  }

  lemma TimerStepKeeps(s: State)
    requires KInv(s) && s.calls[Me(s)].InTimer? && Run(s.core).phase == Idle
    ensures s.calls[Me(s)].timer < |s.timers| && KInv(TimerStep(s))
  {
    assert CallOk(s.calls[Me(s)], Me(s), Run(s.core), true, s.core.nest);
    match s.calls[Me(s)].stage
    case Stamping => StampStep(s);
    case Checking => CheckStep(s);
    case Inserting => InsertStep(s);
    case Testing => TestStep(s);
    case Asking => AskStep(s);
    case Blocking =>
    case Releasing => ReleaseStep(s);
  }

  lemma SemAskStep(s: State)
    requires KInv(s) && s.calls[Me(s)].InSem? && Run(s.core).phase == Idle
    ensures Sane(s) && KInv(WaitCall(s, SIGF_SINGLE, s.calls[Me(s)].(asking := false)))
  {
    KInvIsOthers(s);
    var call := s.calls[Me(s)];
    assert CallOk(call, Me(s), Run(s.core), true, s.core.nest);
    assert CallLinked(call, Me(s), Run(s.core), s.timers, s.ports);
    WaitCallStep(s, SIGF_SINGLE, call.(asking := false));
  }

  lemma ProceedStep(s: State)
    requires KInv(s) && Linked(s) && Enabled(s, Proceed)
    ensures KInv(ApplyProceed(s))
  {
    match Run(s.core).phase
    case Window(_, _) => KickStep(s);
    case Kicked(_, _) => ResumeStep(s);
    case Idle =>
      assert CallOk(s.calls[Me(s)], Me(s), Run(s.core), true, s.core.nest);
      match s.calls[Me(s)]
      case InTimer(_, _, _, _, _, _, _, _) => TimerStepKeeps(s);
      case InSem(_, _, _) => SemAskStep(s);
      case _ =>
  }

  lemma PrivateIsQuiet(s: State)
    requires Linked(s) && Private(s, Tim2)
    ensures QuietDue(s, AddTicks(s.clock, 1))
  {
    var now := AddTicks(s.clock, 1);
    forall t | 0 <= t < |s.calls| && s.calls[t].InTimer? && s.calls[t].delaying && s.calls[t].timer < |s.timers|
      ensures DueSignals(s.timers, s.tq, now, t, s.calls[t].timer) * s.timers[s.calls[t].timer].signal == {}
    {
      assert Sent(s, Tim2, t, s.calls[t].timer) == DueSignals(s.timers, s.tq, now, t, s.calls[t].timer);
    }
  }

  lemma PollAt(s: State, now: Ticks)
    requires KInv(s) && Linked(s) && QuietDue(s, now)
    ensures KInv(Polled(s, now).(clock := now))
  {
    PollStep(s, now);
    ClockStep(Polled(s, now), now);
  }

  lemma Tim2Step(s: State)
    requires KInv(s) && Linked(s) && Private(s, Tim2)
    ensures KInv(ApplyTim2(s))
  {
    PrivateIsQuiet(s);
    PollAt(s, AddTicks(s.clock, 1));
  }

  lemma ClockStep(s: State, now: Ticks)
    requires KInv(s)
    ensures KInv(s.(clock := now))
  {}

  lemma IrqActionStep(s: State, a: Action)
    requires KInv(s) && Linked(s) && Enabled(s, a) && Private(s, a)
    requires a.Proceed? || a.Tim2? || a.SysTickIrq? || a.PendSVIrq?
    ensures KInv(ApplyIrq(s, a))
  {
    match a
    case Proceed => ProceedStep(s);
    case Tim2 => Tim2Step(s);
    case SysTickIrq => SysTickStep(s);
    case PendSVIrq => PendSVStep(s);
  }

  lemma ActionKeeps(s: State, a: Action)
    requires KInv(s) && Linked(s) && Enabled(s, a) && Private(s, a)
    ensures KInv(Apply(s, a))
  {
    if TaskAction(a) {
      TaskActionStep(s, a);
    } else if SemAction(a) {
      SemActionStep(s, a);
    } else if MsgAction(a) {
      PortActionStep(s, a);
    } else if TimerAction(a) {
      TimerActionStep(s, a);
    } else {
      IrqActionStep(s, a);
    }
  }

  lemma {:induction false} RunKeeps(s: State, actions: seq<Action>, s': State)
    requires KInv(s) && Leads(s, actions, s')
    ensures KInv(s')
    decreases |actions|
  {
    if actions != [] {
      ActionKeeps(s, actions[0]);
      RunKeeps(Apply(s, actions[0]), actions[1..], s');
    }
  }

  // Every state the kernel reaches from martos_pre satisfies the invariant.
  lemma ReachableKInv(s: State)
    requires Reachable(s)
    ensures KInv(s)
  {
    BootKInv();
    var actions :| Leads(Boot(), actions, s);
    RunKeeps(Boot(), actions, s);
  }
}
