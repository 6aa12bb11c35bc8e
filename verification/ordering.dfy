// The order of the ready list over whole runs.
module Ordering {
  import opened Queues
  import opened Scheduler
  import opened SchedulerInv
  import opened SchedulerOrder
  import opened Machine
  import opened MachineInv
  import opened MachineTimers
  import opened MachineRuns

  // What a run takes care of when it calls task_set_prio on a READY task: that the new
  // priority fits where the task stands, or that it does not even pass an equal.
  datatype Care = ForPriority | ForArrival

  ghost predicate Careful(care: Care, s: State, a: Action)
    requires Linked(s)
  {
    a.TaskSetPrio? && a.task < |s.core.tasks| ==>
      match care
      case ForPriority => PrioFits(s.core, a.task, a.prio)
      case ForArrival => KeepsPlace(s.core, a.task, a.prio)
  }

  ghost predicate InOrder(care: Care, c: Core) {
    match care
    case ForPriority => Top(c)
    case ForArrival => Fifo(c)
  }

  ghost predicate LeadsCarefully(care: Care, s: State, actions: seq<Action>, s': State)
    decreases |actions|
  {
    if actions == [] then s == s'
    else
      && Linked(s) && Enabled(s, actions[0]) && Private(s, actions[0]) && Careful(care, s, actions[0])
      && LeadsCarefully(care, Apply(s, actions[0]), actions[1..], s')
  }

  ghost predicate ReachableWith(care: Care, s: State) {
    exists actions :: LeadsCarefully(care, Boot(), actions, s)
  }

  // -- Actions that leave the ready list alone --

  lemma WaitEnterQuiet(c: Core, sigs: Signals)
    requires InBounds(c)
    ensures Quiet(c, WaitEnter(c, sigs))
  {}

  lemma PortLoopQuiet(s: State, p: PortId)
    requires Sane(s) && p < |s.ports|
    ensures Quiet(s.core, PortLoop(s, p).core)
    decreases s.ports[p].signal * Run(s.core).sigRecvd != {}
  {
    if s.ports[p].queue == [] {
      var sigs := s.ports[p].signal;
      WaitEnterQuiet(s.core, sigs);
      if sigs * Run(s.core).sigRecvd != {} {
        var s1 := s.(core := WaitEnter(s.core, sigs));
        PortLoopQuiet(s1, p);
        QuietTrans(s.core, s1.core, PortLoop(s, p).core);
      }
    }
  }

  lemma AfterWaitQuiet(s: State, got: Signals)
    requires Sane(s)
    requires s.calls[Me(s)].InPort? ==> s.calls[Me(s)].port < |s.ports|
    ensures Quiet(s.core, AfterWait(s, got).core)
  {
    if s.calls[Me(s)].InPort? { PortLoopQuiet(s, s.calls[Me(s)].port); }
  }

  lemma WaitCallQuiet(s: State, sigs: Signals, call: Call)
    requires Sane(s) && (call.InPort? ==> call.port < |s.ports|)
    ensures Quiet(s.core, WaitCall(s, sigs, call).core)
  {
    WaitEnterQuiet(s.core, sigs);
    var s1 := SetCall(s.(core := WaitEnter(s.core, sigs)), call);
    if sigs * Run(s.core).sigRecvd != {} {
      AfterWaitQuiet(s1, sigs * Run(s.core).sigRecvd);
      QuietTrans(s.core, s1.core, WaitCall(s, sigs, call).core);
    }
  }

  lemma TimerStepQuiet(s: State)
    requires KInv(s) && s.calls[Me(s)].InTimer? && Run(s.core).phase == Idle
    ensures Sane(s) && s.calls[Me(s)].timer < |s.timers|
    ensures Quiet(s.core, TimerStep(s).core)
  {
    MyTimer(s);
    var call := s.calls[Me(s)];
    if call.stage == Asking {
      WaitCallQuiet(s, s.timers[call.timer].signal, call.(stage := Blocking));
    }
  }

  lemma ResumeQuiet(s: State)
    requires KInv(s) && Linked(s) && Enabled(s, Proceed) && Run(s.core).phase.Kicked?
    ensures Quiet(s.core, ApplyProceed(s).core)
  {
    ResumeKeeps(s.core);
    var s1 := s.(core := Resume(s.core));
    AfterWaitQuiet(s1, Run(s.core).phase.sigs * Run(s.core).sigRecvd);
    QuietTrans(s.core, s1.core, ApplyProceed(s).core);
  }

  lemma ProceedQuiet(s: State)
    requires KInv(s) && Linked(s) && Enabled(s, Proceed)
    ensures Quiet(s.core, ApplyProceed(s).core)
  {
    assert CallOk(s.calls[Me(s)], Me(s), Run(s.core), true, s.core.nest);
    match Run(s.core).phase
    case Window(_, _) =>
    case Kicked(_, _) => ResumeQuiet(s);
    case Idle =>
      if s.calls[Me(s)].InTimer? {
        TimerStepQuiet(s);
      } else {
        WaitCallQuiet(s, SIGF_SINGLE, s.calls[Me(s)].(asking := false));
      }
  }

  lemma TaskQuiet(s: State, a: Action)
    requires Linked(s) && Enabled(s, a) && TaskAction(a)
    requires !a.TaskSchedule? && !a.TaskSetPrio? && !a.SignalSend?
    ensures Quiet(s.core, ApplyTask(s, a).core)
  {
    if a.SignalWait? { WaitCallQuiet(s, a.sigs, InWait(s.core.nest)); }
  }

  lemma MsgQuiet(s: State, a: Action)
    requires Linked(s) && Enabled(s, a) && MsgAction(a) && !a.PortSend?
    ensures Quiet(s.core, ApplyPort(s, a).core)
  {
    if a.PortWait? {
      var s1 := SetCall(s.(core := s.core.(nest := s.core.nest + 1)), InPort(a.port, s.core.nest));
      PortLoopQuiet(s1, a.port);
      QuietTrans(s.core, s1.core, ApplyPort(s, a).core);
    }
  }

  lemma TimerQuiet(s: State, a: Action)
    requires Linked(s) && Enabled(s, a) && TimerAction(a)
    ensures Quiet(s.core, ApplyTimer(s, a).core)
  {}

  // -- Actions that change it --

  lemma TaskOrder(s: State, a: Action)
    requires KInv(s) && Linked(s) && Enabled(s, a)
    requires a.TaskSchedule? || a.TaskSetPrio? || a.SignalSend?
    ensures forall care :: Careful(care, s, a) && InOrder(care, s.core) ==> InOrder(care, ApplyTask(s, a).core)
  {
    match a
    case TaskSchedule(t) => ScheduleKeepsOrder(s.core, t);
    case TaskSetPrio(t, prio) =>
      if Top(s.core) { SetPrioTopExact(s.core, t, prio); }
      if Fifo(s.core) { SetPrioFifoExact(s.core, t, prio); }
    case SignalSend(_, t, sigs) => SendKeepsOrder(s.core, t, sigs);
  }

  lemma SemOrder(s: State, a: Action)
    requires KInv(s) && Linked(s) && Enabled(s, a) && SemAction(a)
    ensures forall care :: InOrder(care, s.core) ==> InOrder(care, ApplySem(s, a).core)
  {
    if a.SemSignal? && Dequeued(s.sems[a.sem]).Some? {
      var req := Dequeued(s.sems[a.sem]).value;
      SendKeepsOrder(s.core, req.waiter, req.signal);
    }
  }

  lemma PortSendOrder(s: State, a: Action)
    requires KInv(s) && Linked(s) && Enabled(s, a) && a.PortSend?
    ensures forall care :: InOrder(care, s.core) ==> InOrder(care, ApplyPort(s, a).core)
  {
    var p := s.ports[a.port];
    if Signals?(p) {
      SendKeepsOrder(s.core, p.task.value, p.signal);
    }
  }

  lemma {:induction false} PollOrder(care: Care, c: Core, timers: seq<Timer>, tq: seq<TimerId>, now: Ticks)
    requires Inv(c) && Pollable(c, timers, tq) && InOrder(care, c)
    ensures InOrder(care, Poll(c, timers, tq, now).0)
    decreases |tq|
  {
    if tq != [] && timers[tq[0]].tick <= now {
      var tm := timers[tq[0]];
      SendKeepsOrder(c, Owner(tm), tm.signal);
      SendKeeps(c, Owner(tm), tm.signal);
      PollOrder(care, SendHead(c, timers, tq), timers[tq[0] := Expired(tm)], tq[1..], now);
    }
  }

  lemma IrqOrder(care: Care, s: State, a: Action)
    requires KInv(s) && Linked(s) && Enabled(s, a) && (a.Tim2? || a.SysTickIrq? || a.PendSVIrq?)
    requires InOrder(care, s.core)
    ensures InOrder(care, ApplyIrq(s, a).core)
  {
    match a
    case Tim2 => PollOrder(care, s.core, s.timers, s.tq, AddTicks(s.clock, 1));
    case SysTickIrq => QuietKeeps(s.core, SysTick(s.core));
    case PendSVIrq =>
      if care.ForPriority? { PendSVKeepsTop(s.core); } else { PendSVKeepsFifo(s.core); }
  }

  ghost predicate Reorders(a: Action) {
    || a.TaskSchedule? || a.TaskSetPrio? || a.SignalSend? || SemAction(a) || a.PortSend?
    || a.Tim2? || a.SysTickIrq? || a.PendSVIrq?
  }

  lemma ActionKeepsOrder(care: Care, s: State, a: Action)
    requires KInv(s) && Linked(s) && Enabled(s, a) && Careful(care, s, a) && InOrder(care, s.core)
    ensures InOrder(care, Apply(s, a).core)
  {
    if Reorders(a) {
      ReorderingAction(care, s, a);
    } else {
      QuietAction(s, a);
      QuietKeeps(s.core, Apply(s, a).core);
    }
  }

  lemma ReorderingAction(care: Care, s: State, a: Action)
    requires KInv(s) && Linked(s) && Enabled(s, a) && Careful(care, s, a) && InOrder(care, s.core) && Reorders(a)
    ensures InOrder(care, Apply(s, a).core)
  {
    if a.TaskSchedule? || a.TaskSetPrio? || a.SignalSend? {
      assert Apply(s, a) == ApplyTask(s, a);
      TaskOrder(s, a);
    } else if SemAction(a) {
      assert Apply(s, a) == ApplySem(s, a);
      SemOrder(s, a);
    } else if a.PortSend? {
      assert Apply(s, a) == ApplyPort(s, a);
      PortSendOrder(s, a);
    } else {
      assert Apply(s, a) == ApplyIrq(s, a);
      IrqOrder(care, s, a);
    }
  }

  lemma QuietAction(s: State, a: Action)
    requires KInv(s) && Linked(s) && Enabled(s, a)
    requires !Reorders(a)
    ensures Quiet(s.core, Apply(s, a).core)
  {
    if TaskAction(a) {
      TaskQuiet(s, a);
    } else if MsgAction(a) {
      MsgQuiet(s, a);
    } else if TimerAction(a) {
      TimerQuiet(s, a);
    } else {
      ProceedQuiet(s);
    }
  }

  // -- Runs --

  lemma {:induction false} CarefulRunKeepsOrder(care: Care, s: State, actions: seq<Action>, s': State)
    requires KInv(s) && InOrder(care, s.core) && LeadsCarefully(care, s, actions, s')
    ensures KInv(s') && InOrder(care, s'.core) && Leads(s, actions, s')
    decreases |actions|
  {
    if actions != [] {
      ActionKeeps(s, actions[0]);
      ActionKeepsOrder(care, s, actions[0]);
      CarefulRunKeepsOrder(care, Apply(s, actions[0]), actions[1..], s');
    }
  }

  lemma BootInOrder(care: Care)
    ensures KInv(Boot()) && InOrder(care, Boot().core)
  {
    BootKInv();
  }

  lemma ReachableInOrder(care: Care, s: State)
    requires ReachableWith(care, s)
    ensures KInv(s) && InOrder(care, s.core) && Reachable(s)
  {
    BootInOrder(care);
    var actions :| LeadsCarefully(care, Boot(), actions, s);
    CarefulRunKeepsOrder(care, Boot(), actions, s);
  }

  // -- Results --

  // README's scheduling invariant. As long as no task_set_prio gives a READY task a
  // priority that does not fit where it stands in the ready list, the running task has a
  // priority at least as high as every task ready for execution.
  lemma RunningHasTopPriority(s: State, t: TaskId)
    requires ReachableWith(ForPriority, s) && t < |s.core.tasks| && Me(s) < |s.core.tasks|
    requires Run(s.core).state == Running && !s.core.pendsv
    requires s.core.tasks[t].state == Ready
    ensures s.core.tasks[t].prio <= Run(s.core).prio
  {
    ReachableInOrder(ForPriority, s);
    assert t in s.core.ready;
    assert s.core.ready[IndexOf(s.core.ready, t)] == t;
  }

  // A task may be chosen by the next switch: it is ready, or it is the running one.
  ghost predicate Candidate(c: Core, t: TaskId)
    requires t < |c.tasks|
  {
    c.tasks[t].state == Ready || c.tasks[t].state == Running
  }

  // When the outgoing task is still RUNNING it counts as arriving last.
  ghost function CandidateRank(c: Core, t: TaskId): Rank
    requires t < |c.tasks|
  {
    if c.tasks[t].state == Running then Rank(c.tasks[t].prio, c.arrivals) else RankOf(c.tasks[t])
  }

  // PendSV selects the earliest-arrived among the candidates of maximal priority, as long
  // as no task_set_prio made a READY task's rank pass a neighbour's.
  lemma PendSVSelectsFirstOfHighest(s: State, t: TaskId)
    requires ReachableWith(ForArrival, s) && t < |s.core.tasks| && Candidate(s.core, t)
    ensures CanSwitch(s.core) && PendSV(s.core).running < |s.core.tasks|
    ensures var r := PendSV(s.core).running;
      && Candidate(s.core, r)
      && (t != r ==> Before(CandidateRank(s.core, r), CandidateRank(s.core, t)))
  {
    ReachableInOrder(ForArrival, s);
    SwitchSelects(s.core, t);
  }

  lemma SwitchSelects(c: Core, t: TaskId)
    requires Inv(c) && Fifo(c) && t < |c.tasks| && Candidate(c, t)
    ensures CanSwitch(c) && PendSV(c).running < |c.tasks|
    ensures var r := PendSV(c).running;
      Candidate(c, r) && (t != r ==> Before(CandidateRank(c, r), CandidateRank(c, t)))
  {
    PendSVFindsTask(c);
    RequeueKeeps(c);
    RequeueFifo(c);
    var d := Requeue(c);
    var r := d.ready[0];
    assert r in d.ready && t in d.ready;
    assert RankOf(d.tasks[t]) == CandidateRank(c, t) && RankOf(d.tasks[r]) == CandidateRank(c, r);
    if t != r {
      var i := IndexOf(d.ready, t);
      assert Before(Ranks(d.ready, d.tasks)[0], Ranks(d.ready, d.tasks)[i]);
    }
  }
}
