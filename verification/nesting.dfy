// The interrupt nest count that each task's own code sees.
module Nesting {
  import opened Scheduler
  import opened SchedulerInv
  import opened Machine
  import opened MachineInv
  import opened MachineSteps
  import opened MachineTimers
  import opened MachineRuns

  // For a task outside kernel calls: id_nestcnt, or its saved copy when it is switched
  // out. Inside a kernel call: the count the call was entered with.
  ghost function UserNest(s: State, t: TaskId): int
    requires t < |s.calls| == |s.core.tasks|
  {
    if !s.calls[t].User? then s.calls[t].entry
    else if t == Me(s) then s.core.nest
    else s.core.tasks[t].nest
  }

  // The other calls stay as they are, and the running task's own count is n.
  ghost predicate Keeps(s: State, s': State, n: int) {
    && Me(s') == Me(s) < |s.calls| <= |s'.calls|
    && (forall t :: 0 <= t < |s.calls| && t != Me(s) ==> s'.calls[t] == s.calls[t])
    && (if s'.calls[Me(s)].User? then s'.core.nest == n else s'.calls[Me(s)].entry == n)
  }

  lemma PortLoopNest(s: State, p: PortId, entry: int)
    requires Sane(s) && p < |s.ports| && s.calls[Me(s)] == InPort(p, entry) && s.core.nest == entry + 1
    ensures Keeps(s, PortLoop(s, p), entry)
    decreases s.ports[p].signal * Run(s.core).sigRecvd != {}
  {
    if s.ports[p].queue == [] && s.ports[p].signal * Run(s.core).sigRecvd != {} {
      PortLoopNest(s.(core := WaitEnter(s.core, s.ports[p].signal)), p, entry);
    }
  }

  lemma AfterWaitNest(s: State, got: Signals)
    requires Sane(s) && InSignalWait(s.calls[Me(s)])
    requires s.calls[Me(s)].InPort? ==> s.calls[Me(s)].port < |s.ports|
    requires s.core.nest == s.calls[Me(s)].entry + Depth(s.calls[Me(s)]) - 1
    ensures Keeps(s, AfterWait(s, got), s.calls[Me(s)].entry)
  {
    if s.calls[Me(s)].InPort? {
      PortLoopNest(s, s.calls[Me(s)].port, s.calls[Me(s)].entry);
    }
  }

  lemma WaitCallNest(s: State, sigs: Signals, call: Call)
    requires Sane(s) && InSignalWait(call) && !call.InPort? && s.core.nest == call.entry
    ensures Keeps(s, WaitCall(s, sigs, call), call.entry)
  {
    if sigs * Run(s.core).sigRecvd != {} {
      AfterWaitNest(SetCall(s.(core := WaitEnter(s.core, sigs)), call), sigs * Run(s.core).sigRecvd);
    }
  }

  lemma TimerStepNest(s: State)
    requires KInv(s) && s.calls[Me(s)].InTimer? && Run(s.core).phase == Idle
    ensures Sane(s) && s.calls[Me(s)].timer < |s.timers|
    ensures Keeps(s, TimerStep(s), s.calls[Me(s)].entry)
  {
    MyTimer(s);
    var call := s.calls[Me(s)];
    if call.stage == Asking {
      WaitCallNest(s, s.timers[call.timer].signal, call.(stage := Blocking));
    }
  }

  lemma ProceedNest(s: State)
    requires KInv(s) && Linked(s) && Enabled(s, Proceed)
    ensures Keeps(s, ApplyProceed(s), s.calls[Me(s)].entry)
  {
    assert CallOk(s.calls[Me(s)], Me(s), Run(s.core), true, s.core.nest);
    match Run(s.core).phase
    case Window(_, _) =>
    case Kicked(sigs, _) =>
      ResumeKeeps(s.core);
      AfterWaitNest(s.(core := Resume(s.core)), sigs * Run(s.core).sigRecvd);
    case Idle =>
      if s.calls[Me(s)].InTimer? {
        TimerStepNest(s);
      } else {
        WaitCallNest(s, SIGF_SINGLE, s.calls[Me(s)].(asking := false));
      }
  }

  // How many levels the action itself opens or closes.
  function Opened(a: Action): int {
    if a.Disable? then 1 else if a.Enable? then -1 else 0
  }

  lemma TaskNest(s: State, a: Action)
    requires Linked(s) && Enabled(s, a) && TaskAction(a) && !a.SignalSend?
    ensures Keeps(s, ApplyTask(s, a), s.core.nest + Opened(a))
  {
    if a.SignalWait? { WaitCallNest(s, a.sigs, InWait(s.core.nest)); }
  }

  lemma SemNest(s: State, a: Action)
    requires Linked(s) && Enabled(s, a) && SemAction(a) && !a.SemSignal?
    ensures Keeps(s, ApplySem(s, a), s.core.nest)
  {}

  lemma MsgNest(s: State, a: Action)
    requires Linked(s) && Enabled(s, a) && MsgAction(a) && !a.PortSend?
    ensures Keeps(s, ApplyPort(s, a), s.core.nest)
  {
    if a.PortWait? {
      PortLoopNest(SetCall(s.(core := s.core.(nest := s.core.nest + 1)), InPort(a.port, s.core.nest)), a.port, s.core.nest);
    }
  }

  lemma TimerNest(s: State, a: Action)
    requires Linked(s) && Enabled(s, a) && TimerAction(a)
    ensures Keeps(s, ApplyTimer(s, a), s.core.nest)
  {}

  // An interrupt handler's send leaves the interrupted call and its count.
  lemma InterruptNest(s: State, a: Action)
    requires Linked(s) && Enabled(s, a) && (a.SignalSend? || a.SemSignal? || a.PortSend? || a.SysTickIrq? || a.Tim2?)
    ensures var s' := Apply(s, a); Me(s') == Me(s) && s'.core.nest == s.core.nest && s'.calls == s.calls
  {}

  ghost predicate OwnNestKept(s: State, a: Action)
    requires KInv(s) && Linked(s) && Enabled(s, a)
  {
    Keeps(s, Apply(s, a), UserNest(s, Me(s)) + Opened(a))
  }

  lemma ActionNest(s: State, a: Action)
    requires KInv(s) && Linked(s) && Enabled(s, a) && !a.PendSVIrq?
    ensures OwnNestKept(s, a)
  {
    if a.Proceed? {
      ProceedNest(s);
    } else if a.SignalSend? || a.SemSignal? || a.PortSend? || a.SysTickIrq? || a.Tim2? {
      InterruptNest(s, a);
    } else {
      OwnNest(s, a);
    }
  }

  lemma OwnNest(s: State, a: Action)
    requires KInv(s) && Linked(s) && Enabled(s, a) && !a.Proceed? && !a.PendSVIrq?
    requires !(a.SignalSend? || a.SemSignal? || a.PortSend? || a.SysTickIrq? || a.Tim2?)
    ensures OwnNestKept(s, a)
  {
    if TaskAction(a) {
      TaskNest(s, a);
    } else if SemAction(a) {
      SemNest(s, a);
    } else if MsgAction(a) {
      MsgNest(s, a);
    } else {
      TimerNest(s, a);
    }
  }

  // The count that a task's code sees only changes by the task's own disable() and
  // enable(): kernel calls return at the level they were entered with, even after
  // blocking under an outer disable(), and interrupts and switches do not disturb it.
  lemma NestCountIsPrivate(s: State, a: Action, t: TaskId)
    requires Reachable(s) && Linked(s) && Enabled(s, a) && Private(s, a) && t < |s.calls|
    ensures t < |Apply(s, a).calls| == |Apply(s, a).core.tasks|
    ensures UserNest(Apply(s, a), t) == UserNest(s, t) + if t == Me(s) then Opened(a) else 0
  {
    ReachableKInv(s);
    ActionKeeps(s, a);
    NestStepLaw(s, a, t);
  }

  lemma NestStepLaw(s: State, a: Action, t: TaskId)
    requires KInv(s) && Linked(s) && Enabled(s, a) && KInv(Apply(s, a)) && t < |s.calls|
    ensures t < |Apply(s, a).calls| == |Apply(s, a).core.tasks|
    ensures UserNest(Apply(s, a), t) == UserNest(s, t) + if t == Me(s) then Opened(a) else 0
  {
    if a.PendSVIrq? {
      assert Apply(s, a) == s.(core := PendSV(s.core));
      SwitchNestLaw(s, t);
    } else {
      ActionNest(s, a);
    }
  }

  lemma SwitchNestLaw(s: State, t: TaskId)
    requires KInv(s) && Linked(s) && Enabled(s, PendSVIrq) && t < |s.calls|
    ensures var s' := s.(core := PendSV(s.core));
      t < |s'.calls| == |s'.core.tasks| && UserNest(s', t) == UserNest(s, t)
  {
    SwitchFrame(s.core, t);
    PendSVKeeps(s.core);
  }

  // Every switch happens at id_nestcnt == -1, and so every task that is not running
  // has -1 saved.
  lemma SwitchesAtBaseLevel(s: State)
    requires Reachable(s)
    ensures s.core.pendsv && s.core.nest < 0 ==> s.core.nest == -1
    ensures forall t :: 0 <= t < |s.core.tasks| && t != Me(s) ==> s.core.tasks[t].nest == -1
  {
    ReachableKInv(s);
  }
}
