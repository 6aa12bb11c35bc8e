// The methods on objects carry out the actions of the machine: in every reachable state
// their preconditions hold, and what they do is the action's step.
module Refinement {
  import opened Queues
  import opened Scheduler
  import opened SchedulerInv
  import opened Machine
  import opened MachineInv
  import opened MachineRuns
  import K = KernelObjects
  import TO = TimerObjects
  import SO = SemaphoreObjects
  import PO = MsgPortObjects

  // martos_pre leaves the objects and the machine in the same state.
  lemma ConstructorIsBoot(k: K.Kernel)
    requires k.Valid() && k.core == BootCore()
    ensures k.core == Boot().core && Reachable(Boot())
  {
    assert Leads(Boot(), [], Boot());
  }

  // What the methods of Kernel demand of the kernel's state.
  lemma KernelCallsAreReady(s: State)
    requires Reachable(s)
    ensures Wf(s.core) && s.core.nest >= -1 && CanSwitch(s.core)
    ensures Run(s.core).state != Initialized
    ensures s.core.elapsed < ELAPSED_RANGE && (!s.core.pendsv ==> 1 <= s.core.elapsed)
    ensures Run(s.core).phase.Kicked? ==> Run(s.core).phase.nestcnt >= 0
  {
    ReachableKInv(s);
    PendSVFindsTask(s.core);
    assert TaskOk(Run(s.core));
  }

  // A task can be signalled, or queued by PendSV, without a list disagreeing.
  lemma TasksArePlaced(s: State, k: K.Kernel, t: K.Task)
    requires Reachable(s) && k.Valid() && k.core == s.core && k.Has(t)
    ensures k.Placed(t)
  {
    ReachableKInv(s);
    k.AllPlaced(t);
  }

  // The running task that enters or resumes a signal_wait is in no list.
  lemma RunningIsUnlisted(s: State, k: K.Kernel)
    requires Reachable(s) && k.Valid() && k.core == s.core && Run(s.core).state == Running
    ensures k.running !in k.lists.readyQ && k.running !in k.lists.waitingQ
  {
    TasksArePlaced(s, k, k.running);
  }

  // The timer interrupt: timer_poll may run, and its result is the machine's.
  lemma TimerPollIsTim2(s: State)
    requires Reachable(s) && Enabled(s, Tim2)
    ensures TO.Polling(s.core, s.core.nest, s.timers, s.tq) && Linked(s)
    ensures var now := AddTicks(s.clock, 1);
      var (core, timers, tq) := Poll(s.core, s.timers, s.tq, now);
      Apply(s, Tim2) == s.(core := core, timers := timers, tq := tq, clock := now,
                                epoch := if now == 0 then s.epoch + 1 else s.epoch)
  {
    ReachableKInv(s);
    KInvLinked(s);
    PollingHolds(s);
    Tim2Polls(s);
  }

  lemma Tim2Polls(s: State)
    requires Linked(s) && Enabled(s, Tim2)
    ensures var now := AddTicks(s.clock, 1);
      var (core, timers, tq) := Poll(s.core, s.timers, s.tq, now);
      Apply(s, Tim2) == s.(core := core, timers := timers, tq := tq, clock := now,
                                epoch := if now == 0 then s.epoch + 1 else s.epoch)
  {}

  lemma PollingHolds(s: State)
    requires KInv(s)
    ensures TO.Polling(s.core, s.core.nest, s.timers, s.tq)
  {
    assert s.core.(nest := s.core.nest) == s.core;
    forall i | 0 <= i < |s.tq| ensures s.timers[s.tq[i]].task.Some? {
      assert TimerOk(s.timers[s.tq[i]], s.tq[i] in s.tq, |s.core.tasks|);
    }
  }

  // timer_add inserts only a timer that is in no queue.
  lemma TimerInsertIsReady(s: State)
    requires Reachable(s) && Me(s) < |s.calls| && s.calls[Me(s)].InTimer? && s.calls[Me(s)].stage == Inserting
    ensures s.calls[Me(s)].timer < |s.timers| && s.calls[Me(s)].timer !in s.tq
    ensures forall j :: 0 <= j < |s.tq| ==> s.tq[j] < |s.timers|
  {
    ReachableKInv(s);
    var t := Me(s);
    assert CallLinked(s.calls[t], t, s.core.tasks[t], s.timers, s.ports);
    assert StageOk(s.calls[t], s.core.tasks[t], s.timers, s.tq);
  }

  // sem_signal finds a request whenever it looks for one, and does the machine's step.
  lemma SemSignalIsReady(s: State, k: K.Kernel, m: SO.Semaphore, irq: bool, i: SemId)
    requires Reachable(s) && Enabled(s, SemSignal(irq, i)) && k.Valid() && k.core == s.core
    requires m.kernel == k && m.sem == s.sems[i]
    ensures m.FindsRequest() && (m.sem.count + 1 < 0 ==> Dequeued(m.sem).Some?)
    ensures Linked(s)
    ensures Apply(s, SemSignal(irq, i))
         == s.(core := SO.Released(s.core, Dequeued(s.sems[i])), sems := s.sems[i := SignalSem(s.sems[i])])
  {
    ReachableKInv(s);
    KInvLinked(s);
    assert SemOk(s.sems[i], |s.core.tasks|);
    m.AlwaysFinds();
  }

  // msgport_send does the machine's step.
  lemma PortSendIsReady(s: State, irq: bool, p: PortId, msg: Message)
    requires Reachable(s) && Enabled(s, PortSend(irq, p, msg))
    ensures Linked(s)
    ensures Apply(s, PortSend(irq, p, msg))
         == s.(core := PO.Notified(s.core, s.ports[p]), ports := s.ports[p := PutMessage(s.ports[p], msg)])
  {
    ReachableKInv(s);
    KInvLinked(s);
  }

  // msgport_wait up to its return or its first blocking.
  lemma PortWaitIsReady(s: State, p: PortId)
    requires Reachable(s) && Enabled(s, PortWait(p))
    ensures Linked(s)
    ensures Apply(s, PortWait(p)).core ==
      if s.ports[p].queue != [] then s.core
      else PO.PortBlocked(s.core.(nest := s.core.nest + 1), s.ports[p].signal)
  {
    ReachableKInv(s);
    KInvLinked(s);
    WaitingCore(s, p);
  }

  lemma WaitingCore(s: State, p: PortId)
    requires Linked(s) && Enabled(s, PortWait(p))
    ensures Apply(s, PortWait(p)).core ==
      if s.ports[p].queue != [] then s.core
      else PO.PortBlocked(s.core.(nest := s.core.nest + 1), s.ports[p].signal)
  {
    var s0 := SetCall(s.(core := s.core.(nest := s.core.nest + 1)), InPort(p, s.core.nest));
    assert Apply(s, PortWait(p)) == PortLoop(s0, p);
    if s.ports[p].queue == [] {
      PortLoopBlocks(s0, p);
    } else {
      assert s0.core.(nest := s0.core.nest - 1) == s.core;
    }
  }

  lemma PortLoopBlocks(s: State, p: PortId)
    requires Sane(s) && p < |s.ports| && s.ports[p].queue == []
    ensures PortLoop(s, p).core == PO.PortBlocked(s.core, s.ports[p].signal)
  {
    var sigs := s.ports[p].signal;
    var s1 := s.(core := WaitEnter(s.core, sigs));
    if sigs * Run(s.core).sigRecvd != {} {
      assert sigs * Run(s1.core).sigRecvd == {};
      assert PortLoop(s1, p) == s1.(core := WaitEnter(s1.core, sigs));
    }
  }

  // sem_wait is AddRequest and then, if that queued the request, a signal_wait.
  lemma SemWaitIsTwoRegions(s: State, m: SemId)
    requires Reachable(s) && Enabled(s, SemWait(m))
    ensures Linked(s)
    ensures var s' := Apply(s, SemWait(m));
      && s'.core == s.core && s'.sems == s.sems[m := AddRequest(s.sems[m], Request(Me(s), SIGF_SINGLE))]
      && (s'.calls[Me(s)].InSem? <==> AddRequest(s.sems[m], Request(Me(s), SIGF_SINGLE)).count < 0)
  {
    ReachableKInv(s);
    KInvLinked(s);
  }

  lemma SemWaitBlocks(s: State)
    requires Reachable(s) && Enabled(s, Proceed) && s.calls[Me(s)].InSem? && s.calls[Me(s)].asking
    ensures Linked(s) && Run(s.core).phase == Idle
    ensures Apply(s, Proceed).core == WaitEnter(s.core, SIGF_SINGLE)
  {
    ReachableKInv(s);
    KInvLinked(s);
    assert CallOk(s.calls[Me(s)], Me(s), Run(s.core), true, s.core.nest);
  }

  // What the methods of Timers demand for timer_abort, timer_allocate and timer_free.
  lemma TimerCallsAreReady(s: State, a: Action)
    requires Reachable(s) && Enabled(s, a) && TimerAction(a)
    ensures Linked(s)
    ensures a.TimerAllocate? ==>
      && Choose(Run(s.core).sigAlloc, -1).0 != -1
      && Apply(s, a) == s.(core := AllocateAny(s.core).0,
                           timers := s.timers + [NewTimer(Me(s), AllocateAny(s.core).1, false)])
    ensures a.TimerAbort? ==>
      && (s.timers[a.timer].status == Added <==> a.timer in s.tq)
      && Apply(s, a) ==
           if s.timers[a.timer].status == Added
           then s.(tq := Without(s.tq, a.timer), timers := s.timers[a.timer := Removed(s.timers[a.timer])]) else s
    ensures a.TimerFree? ==>
      && s.timers[a.timer].signal * SIGF_SINGLE == {} && s.timers[a.timer].signal <= Run(s.core).sigAlloc
      && Apply(s, a) == s.(core := Free(s.core, s.timers[a.timer].signal),
                           timers := s.timers[a.timer := s.timers[a.timer].(task := None, op := NoOp,
                                                                            status := Invalid, aborted := false)])
  {
    ReachableKInv(s);
    KInvLinked(s);
    if a.TimerAbort? { assert TimerOk(s.timers[a.timer], a.timer in s.tq, |s.core.tasks|); }
  }

  // msgport_get takes the oldest message.
  lemma PortGetIsReady(s: State, p: PortId)
    requires Reachable(s) && Enabled(s, PortGet(p))
    ensures Linked(s) && Apply(s, PortGet(p)) == s.(ports := s.ports[p := GetMessage(s.ports[p])])
  {
    ReachableKInv(s);
    KInvLinked(s);
  }

  // msgport_wait after a wake-up, up to its return or its next blocking.
  lemma PortResumeIsReady(s: State)
    requires Reachable(s) && Enabled(s, Proceed) && s.calls[Me(s)].InPort? && Run(s.core).phase.Kicked?
    ensures Linked(s) && s.calls[Me(s)].port < |s.ports|
    ensures var p := s.ports[s.calls[Me(s)].port];
      && Run(s.core).phase.sigs == p.signal && p.signal * Run(s.core).sigRecvd != {} && Run(s.core).phase.nestcnt >= 1
      && Apply(s, Proceed).core ==
           if p.queue != [] then Resume(s.core).(nest := Resume(s.core).nest - 1)
           else PO.PortBlocked(Resume(s.core), p.signal)
  {
    ReachableKInv(s);
    KInvLinked(s);
    ResumeKeeps(s.core);
    var call := s.calls[Me(s)];
    assert CallOk(call, Me(s), Run(s.core), true, s.core.nest);
    assert CallLinked(call, Me(s), Run(s.core), s.timers, s.ports);
    var s1 := s.(core := Resume(s.core));
    assert Apply(s, Proceed) == PortLoop(s1, call.port);
    if s.ports[call.port].queue == [] { PortLoopBlocks(s1, call.port); }
  }
}
