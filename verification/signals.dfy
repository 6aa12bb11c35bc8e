// Signals: the exact account of pending signals, and what signal_wait returns.
module SignalLaws {
  import opened Scheduler
  import opened SchedulerInv
  import opened Machine
  import opened MachineInv
  import opened MachineSteps
  import opened MachineTimers
  import opened MachineRuns
  import opened Timing

  // -- Conservation of pending signals --

  // The signals that the running task's timer_delay or sem_wait is about to wait for.
  function AboutToWait(s: State): Signals {
    if Me(s) >= |s.calls| then {}
    else match s.calls[Me(s)]
      case InTimer(tm, Asking, _, _, _, _, _, _) => if tm < |s.timers| then s.timers[tm].signal else {}
      case InSem(_, _, true) => SIGF_SINGLE
      case _ => {}
  }

  // The signals that the running task's own action consumes: those it waits for, and
  // those that signal_allocate is passed or reaches.
  ghost function Cleared(s: State, a: Action): Signals
    requires Linked(s) && Enabled(s, a)
  {
    match a
    case SignalWait(sigs) => sigs
    case SignalAllocate(n) => Choose(Run(s.core).sigAlloc, n).1
    case TimerAllocate => Choose(Run(s.core).sigAlloc, -1).1
    case TimerDelay(_) => Choose(Run(s.core).sigAlloc, -1).1
    case PortInit => Choose(Run(s.core).sigAlloc, -1).1
    case PortWait(p) => if s.ports[p].queue == [] then s.ports[p].signal else {}
    case Proceed =>
      if Run(s.core).phase.Kicked? then Run(s.core).phase.sigs else AboutToWait(s)
    case _ => {}
  }

  // Task t's pending signals go from `was` to was + sent - cleared.
  ghost predicate Ledger(s: State, s': State, t: TaskId, sent: Signals, cleared: Signals)
    requires t < |s.core.tasks|
  {
    t < |s'.core.tasks| &&
    s'.core.tasks[t].sigRecvd == s.core.tasks[t].sigRecvd + sent - (if t == Me(s) then cleared else {})
  }

  lemma PortLoopLedger(s: State, p: PortId, t: TaskId)
    requires Sane(s) && p < |s.ports| && t < |s.core.tasks|
    ensures Ledger(s, PortLoop(s, p), t, {}, if s.ports[p].queue == [] then s.ports[p].signal else {})
    decreases s.ports[p].signal * Run(s.core).sigRecvd != {}
  {
    if s.ports[p].queue == [] && s.ports[p].signal * Run(s.core).sigRecvd != {} {
      PortLoopLedger(s.(core := WaitEnter(s.core, s.ports[p].signal)), p, t);
    }
  }

  lemma WaitCallLedger(s: State, sigs: Signals, call: Call, t: TaskId)
    requires Sane(s) && InSignalWait(call) && !call.InPort? && t < |s.core.tasks|
    ensures Ledger(s, WaitCall(s, sigs, call), t, {}, sigs)
  {}

  lemma SendSignals(c: Core, x: TaskId, sigs: Signals, t: TaskId)
    requires x < |c.tasks| && c.running < |c.tasks| && InRange(c.ready, c.tasks) && t < |c.tasks|
    ensures Send(c, x, sigs).tasks[t].sigRecvd == c.tasks[t].sigRecvd + if t == x then sigs else {}
  {}

  lemma TaskLedger(s: State, a: Action, t: TaskId)
    requires Linked(s) && Enabled(s, a) && TaskAction(a) && t < |s.core.tasks|
    ensures Ledger(s, ApplyTask(s, a), t, Sent(s, a, t, |s.timers|), Cleared(s, a))
  {
    if a.SignalWait? {
      WaitCallLedger(s, a.sigs, InWait(s.core.nest), t);
    } else if a.SignalSend? {
      SendSignals(s.core, a.task, a.sigs, t);
    }
  }

  lemma SemSignalLedger(s: State, a: Action, t: TaskId)
    requires Linked(s) && Enabled(s, a) && a.SemSignal? && t < |s.core.tasks|
    ensures Ledger(s, ApplySem(s, a), t, Sent(s, a, t, |s.timers|), {})
  {
    var found := Dequeued(s.sems[a.sem]);
    if found.Some? {
      SendSignals(s.core, found.value.waiter, found.value.signal, t);
    }
  }

  lemma SemLedger(s: State, a: Action, t: TaskId)
    requires Linked(s) && Enabled(s, a) && SemAction(a) && t < |s.core.tasks|
    ensures Ledger(s, ApplySem(s, a), t, Sent(s, a, t, |s.timers|), Cleared(s, a))
  {
    if a.SemSignal? {
      SemSignalLedger(s, a, t);
    }
  }

  lemma PortSendLedger(s: State, a: Action, t: TaskId)
    requires Linked(s) && a.PortSend? && Enabled(s, a) && t < |s.core.tasks|
    ensures Ledger(s, ApplyPort(s, a), t, Sent(s, a, t, |s.timers|), {})
  {
    var port := s.ports[a.port];
    if Signals?(port) {
      SendSignals(s.core, port.task.value, port.signal, t);
    }
  }

  lemma MsgLedger(s: State, a: Action, t: TaskId)
    requires Linked(s) && Enabled(s, a) && MsgAction(a) && !a.PortSend? && t < |s.core.tasks|
    ensures Ledger(s, ApplyPort(s, a), t, {}, Cleared(s, a))
  {
    if a.PortWait? {
      PortLoopLedger(SetCall(s.(core := s.core.(nest := s.core.nest + 1)), InPort(a.port, s.core.nest)), a.port, t);
    }
  }

  lemma TimerLedger(s: State, a: Action, t: TaskId)
    requires Linked(s) && Enabled(s, a) && TimerAction(a) && t < |s.core.tasks|
    ensures Ledger(s, ApplyTimer(s, a), t, {}, Cleared(s, a))
  {}

  lemma TimerStepLedger(s: State, t: TaskId)
    requires KInv(s) && s.calls[Me(s)].InTimer? && Run(s.core).phase == Idle && t < |s.core.tasks|
    ensures Sane(s) && s.calls[Me(s)].timer < |s.timers|
    ensures Ledger(s, TimerStep(s), t, {}, AboutToWait(s))
  {
    MyTimer(s);
    var call := s.calls[Me(s)];
    if call.stage == Asking {
      WaitCallLedger(s, s.timers[call.timer].signal, call.(stage := Blocking), t);
    }
  }

  lemma ResumeLedger(s: State, t: TaskId)
    requires KInv(s) && Linked(s) && Enabled(s, Proceed) && Run(s.core).phase.Kicked? && t < |s.core.tasks|
    ensures Ledger(s, ApplyProceed(s), t, {}, Run(s.core).phase.sigs)
  {
    ResumeKeeps(s.core);
    var call := s.calls[Me(s)];
    assert CallOk(call, Me(s), Run(s.core), true, s.core.nest);
    assert CallLinked(call, Me(s), Run(s.core), s.timers, s.ports);
    ResumedLedger(s, t);
  }

  lemma ResumedLedger(s: State, t: TaskId)
    requires Linked(s) && Enabled(s, Proceed) && Run(s.core).phase.Kicked? && t < |s.core.tasks|
    requires Run(Resume(s.core)).phase == Idle
    requires s.calls[Me(s)].InPort? ==>
      s.calls[Me(s)].port < |s.ports| && s.ports[s.calls[Me(s)].port].signal == Run(s.core).phase.sigs
    ensures Ledger(s, ApplyProceed(s), t, {}, Run(s.core).phase.sigs)
  {
    var call, s1 := s.calls[Me(s)], s.(core := Resume(s.core));
    if call.InPort? {
      PortLoopLedger(s1, call.port, t);
    } else {
      ReturnKeepsCore(s1, Run(s.core).phase.sigs * Run(s.core).sigRecvd);
    }
  }

  lemma ReturnKeepsCore(s: State, got: Signals)
    requires Sane(s) && !s.calls[Me(s)].InPort?
    ensures AfterWait(s, got).core == s.core
  {}

  lemma ProceedLedger(s: State, t: TaskId)
    requires KInv(s) && Linked(s) && Enabled(s, Proceed) && t < |s.core.tasks|
    ensures Ledger(s, ApplyProceed(s), t, {}, Cleared(s, Proceed))
  {
    assert CallOk(s.calls[Me(s)], Me(s), Run(s.core), true, s.core.nest);
    match Run(s.core).phase
    case Window(_, _) => MyStage(s);
    case Kicked(_, _) => ResumeLedger(s, t);
    case Idle =>
      if s.calls[Me(s)].InTimer? {
        TimerStepLedger(s, t);
      } else {
        WaitCallLedger(s, SIGF_SINGLE, s.calls[Me(s)].(asking := false), t);
      }
  }

  // In the window of signal_wait the running task is past asking.
  lemma MyStage(s: State)
    requires KInv(s) && Run(s.core).phase != Idle
    ensures AboutToWait(s) == {}
  {
    assert CallOk(s.calls[Me(s)], Me(s), Run(s.core), true, s.core.nest);
  }

  lemma IrqLedger(s: State, a: Action, t: TaskId)
    requires KInv(s) && Linked(s) && Enabled(s, a) && t < |s.core.tasks|
    requires a.Tim2? || a.SysTickIrq? || a.PendSVIrq?
    ensures Ledger(s, ApplyIrq(s, a), t, Sent(s, a, t, |s.timers|), {})
  {
    if a.Tim2? {
      Tim2Ledger(s, t);
    } else if a.PendSVIrq? {
      SwitchLedger(s, t);
    }
  }

  lemma SwitchLedger(s: State, t: TaskId)
    requires Linked(s) && Enabled(s, PendSVIrq) && t < |s.core.tasks|
    ensures Ledger(s, ApplyIrq(s, PendSVIrq), t, {}, {})
  {
    SwitchFrame(s.core, t);
  }

  lemma Tim2Ledger(s: State, t: TaskId)
    requires KInv(s) && Linked(s) && Enabled(s, Tim2) && t < |s.core.tasks|
    ensures Ledger(s, ApplyIrq(s, Tim2), t, Sent(s, Tim2, t, |s.timers|), {})
  {
    PollSignals(s.core, s.timers, s.tq, AddTicks(s.clock, 1), t);
  }

  lemma ActionLedger(s: State, a: Action, t: TaskId)
    requires KInv(s) && Linked(s) && Enabled(s, a) && t < |s.core.tasks|
    ensures Ledger(s, Apply(s, a), t, Sent(s, a, t, |s.timers|), Cleared(s, a))
  {
    if TaskAction(a) {
      TaskLedger(s, a, t);
    } else if SemAction(a) {
      SemLedger(s, a, t);
    } else if a.PortSend? {
      PortSendLedger(s, a, t);
    } else if MsgAction(a) {
      MsgLedger(s, a, t);
    } else if TimerAction(a) {
      TimerLedger(s, a, t);
    } else if a.Proceed? {
      ProceedLedger(s, t);
    } else {
      IrqLedger(s, a, t);
    }
  }

  // Conservation: in every reachable state and for every action, a task's pending
  // signals change by exactly what is sent to it and what it consumes itself.
  lemma SignalsAreConserved(s: State, a: Action, t: TaskId)
    requires Reachable(s) && Linked(s) && Enabled(s, a) && t < |s.core.tasks|
    ensures t < |Apply(s, a).core.tasks|
    ensures Apply(s, a).core.tasks[t].sigRecvd ==
      s.core.tasks[t].sigRecvd + Sent(s, a, t, |s.timers|) - (if t == Me(s) then Cleared(s, a) else {})
  {
    ReachableKInv(s);
    ActionLedger(s, a, t);
  }

  // -- What signal_wait returns --

  // The signals that a signal_wait, begun or continued by this action, asks for.
  ghost predicate Asks(s: State, a: Action, sigs: Signals) {
    || a == SignalWait(sigs)
    || (a.Proceed? && Me(s) < |s.calls| && s.calls[Me(s)].InWait? && Me(s) < |s.core.tasks|
        && Run(s.core).phase.Kicked? && Run(s.core).phase.sigs == sigs)
  }

  // The running task is back from signal_wait with `got` exactly if that is not empty.
  ghost predicate Returned(s: State, s': State, got: Signals)
    requires Me(s) < |s.core.tasks|
  {
    && Me(s) < |s'.calls| && Me(s) < |s'.core.tasks|
    && (s'.calls[Me(s)].User? <==> got != {})
    && (got != {} ==> s'.calls[Me(s)] == User(Received(got))
                      && s'.core.tasks[Me(s)].sigRecvd == Run(s.core).sigRecvd - got)
  }

  // signal_wait returns just when a requested signal is pending; it returns exactly the
  // requested ones that are, and clears those.
  lemma WaitReturnsRequested(s: State, a: Action, sigs: Signals)
    requires Reachable(s) && Linked(s) && Enabled(s, a) && Asks(s, a, sigs)
    ensures Returned(s, Apply(s, a), sigs * Run(s.core).sigRecvd)
  {
    ReachableKInv(s);
    AskedReturns(s, a, sigs);
  }

  lemma AskedReturns(s: State, a: Action, sigs: Signals)
    requires KInv(s) && Linked(s) && Enabled(s, a) && Asks(s, a, sigs)
    ensures Returned(s, Apply(s, a), sigs * Run(s.core).sigRecvd)
  {
    if a.Proceed? {
      assert Apply(s, a) == ApplyProceed(s);
      ResumeReturns(s, sigs);
    } else {
      assert Apply(s, a) == ApplyTask(s, a);
    }
  }

  lemma ResumeReturns(s: State, sigs: Signals)
    requires KInv(s) && Linked(s) && Enabled(s, Proceed) && Asks(s, Proceed, sigs)
    ensures Returned(s, ApplyProceed(s), sigs * Run(s.core).sigRecvd)
  {
    ResumeKeeps(s.core);
  }
}
