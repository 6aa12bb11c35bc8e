// Every action keeps the kernel invariant.
module MachineSteps {
  import opened Queues
  import opened Scheduler
  import opened SchedulerInv
  import opened Machine
  import opened MachineInv

  // -- Task actions --

  lemma AtUserIdle(s: State)
    requires KInv(s) && AtUser(s)
    ensures Run(s.core).phase == Idle && Run(s.core).state == Running
  {
    assert CallOk(s.calls[Me(s)], Me(s), Run(s.core), true, s.core.nest);
  }

  lemma NestStep(s: State, n: int)
    requires KInv(s) && AtUser(s) && n >= -1
    ensures KInv(s.(core := s.core.(nest := n)))
  {
    AtUserIdle(s);
    var c := s.core.(nest := n);
    NestKeeps(s.core, n);
    forall t | 0 <= t < |s.calls| ensures CallOk(s.calls[t], t, c.tasks[t], t == c.running, c.nest) {
      assert CallOk(s.calls[t], t, s.core.tasks[t], t == s.core.running, s.core.nest);
    }
  }

  lemma TaskInitStep(s: State, prio: Prio)
    requires KInv(s)
    ensures KInv(s.(core := Create(s.core, prio), calls := s.calls + [User(NoResult)]))
  {
    CreateKeeps(s.core, prio);
    var s' := s.(core := Create(s.core, prio), calls := s.calls + [User(NoResult)]);
    forall t | 0 <= t < |s'.calls|
      ensures CallOk(s'.calls[t], t, s'.core.tasks[t], t == s'.core.running, s'.core.nest)
      ensures CallLinked(s'.calls[t], t, s'.core.tasks[t], s'.timers, s'.ports)
      ensures StageOk(s'.calls[t], s'.core.tasks[t], s'.timers, s'.tq)
      ensures BlockedOk(t, s'.core.tasks[t], s'.calls[t], s'.ports)
    {
      if t < |s.calls| {
        assert CallOk(s.calls[t], t, s.core.tasks[t], t == s.core.running, s.core.nest);
        assert CallLinked(s.calls[t], t, s.core.tasks[t], s.timers, s.ports);
        assert StageOk(s.calls[t], s.core.tasks[t], s.timers, s.tq);
        assert BlockedOk(t, s.core.tasks[t], s.calls[t], s.ports);
      }
    }
    GrowTasks(s, |s'.core.tasks|);
  }

  lemma GrowTasks(s: State, n: nat)
    requires KInv(s) && n >= |s.core.tasks|
    ensures TimersOk(n, s.timers, s.tq, s.stamps) && SemsOk(n, s.sems) && PortsOk(n, s.ports)
  {
    forall tm | 0 <= tm < |s.timers| ensures TimerOk(s.timers[tm], tm in s.tq, n) {
      assert TimerOk(s.timers[tm], tm in s.tq, |s.core.tasks|);
    }
    forall m | 0 <= m < |s.sems| ensures SemOk(s.sems[m], n) {
      assert SemOk(s.sems[m], |s.core.tasks|);
    }
    forall p | 0 <= p < |s.ports| ensures PortOk(s.ports[p], n) {
      assert PortOk(s.ports[p], |s.core.tasks|);
    }
  }

  // An operation of the running task on itself, outside any kernel call.
  lemma OwnStep(s: State, c': Core)
    requires KInv(s) && AtUser(s) && Inv(c') && Gentle(s.core, c', Me(s), {})
    ensures KInv(s.(core := c'))
  {
    GentleKeeps(s, c', Me(s), {});
  }

  lemma ScheduleGentle(c: Core, t: TaskId)
    requires Inv(c) && t < |c.tasks| && c.tasks[t].state == Initialized
    ensures Gentle(c, Schedule(c, t), c.running, {})
  {}

  lemma ScheduleStep(s: State, t: TaskId)
    requires KInv(s) && AtUser(s) && t < |s.core.tasks| && s.core.tasks[t].state == Initialized
    ensures KInv(s.(core := Schedule(s.core, t)))
  {
    ScheduleKeeps(s.core, t);
    ScheduleGentle(s.core, t);
    OwnStep(s, Schedule(s.core, t));
  }

  lemma SetPrioGentle(c: Core, t: TaskId, prio: Prio)
    requires t < |c.tasks| && c.running < |c.tasks|
    ensures Gentle(c, SetPrio(c, t, prio), c.running, {})
  {}

  lemma SetPrioStep(s: State, t: TaskId, prio: Prio)
    requires KInv(s) && AtUser(s) && t < |s.core.tasks|
    ensures KInv(s.(core := SetPrio(s.core, t, prio)))
  {
    SetPrioKeeps(s.core, t, prio);
    SetPrioGentle(s.core, t, prio);
    OwnStep(s, SetPrio(s.core, t, prio));
  }

  lemma AllocateStep(s: State, n: int)
    requires KInv(s) && AtUser(s) && -1 <= n < SIGNALS_WIDTH
    ensures KInv(s.(core := Allocate(s.core, n)))
  {
    AtUserIdle(s);
    AllocateKeeps(s.core, n);
    OwnStep(s, Allocate(s.core, n));
  }

  lemma FreeStep(s: State, sigs: Signals)
    requires KInv(s) && AtUser(s) && sigs * SIGF_SINGLE == {}
    ensures KInv(s.(core := Free(s.core, sigs)))
  {
    AtUserIdle(s);
    FreeKeeps(s.core, sigs);
    OwnStep(s, Free(s.core, sigs));
  }

  lemma SendStep(s: State, t: TaskId, sigs: Signals)
    requires KInv(s) && t < |s.core.tasks| && Unmixed(s.calls, s.timers, t, sigs)
    ensures KInv(s.(core := Send(s.core, t, sigs)))
  {
    SendKeeps(s.core, t, sigs);
    SendGentle(s.core, t, sigs);
    GentleKeeps(s, Send(s.core, t, sigs), t, sigs);
  }

  lemma SysTickStep(s: State)
    requires KInv(s)
    ensures KInv(s.(core := SysTick(s.core)))
  {
    SysTickKeeps(s.core);
    GentleKeeps(s, SysTick(s.core), |s.calls|, {});
  }

  // -- The context switch --

  ghost predicate SameButQueued(u: Task, u': Task) {
    && u' == u.(state := u'.state, arrival := u'.arrival, nest := u'.nest)
    && (u'.state == Waiting ==> u.state == Waiting)
  }

  lemma SwitchInFrame(c: Core, t: TaskId)
    requires t < |c.tasks| && c.running < |c.tasks| && InRange(c.ready, c.tasks) && c.ready != []
    ensures |SwitchIn(c).tasks| == |c.tasks| && SwitchIn(c).running < |c.tasks|
    ensures SameButQueued(c.tasks[t], SwitchIn(c).tasks[t])
  {}

  // Across a switch every task keeps all but its state, arrival and saved nest count.
  lemma SwitchFrame(c: Core, t: TaskId)
    requires CanSwitch(c) && t < |c.tasks|
    ensures |PendSV(c).tasks| == |c.tasks| && PendSV(c).running < |c.tasks|
    ensures SameButQueued(c.tasks[t], PendSV(c).tasks[t])
  {
    SwitchInFrame(Requeue(c), t);
    assert SameButQueued(c.tasks[t], Requeue(c).tasks[t]);
  }

  lemma PendSVStep(s: State)
    requires KInv(s) && Enabled(s, PendSVIrq)
    ensures CanSwitch(s.core) && KInv(s.(core := PendSV(s.core)))
  {
    PendSVKeeps(s.core);
    SwitchFrame(s.core, INIT);
    SwitchKeepsCalls(s);
  }

  lemma SwitchKeepsCalls(s: State)
    requires KInv(s) && s.core.nest == -1 && CanSwitch(s.core)
    ensures |PendSV(s.core).tasks| == |s.core.tasks|
    ensures var c := PendSV(s.core);
      && CallsOk(c, s.calls, s.timers, s.ports)
      && StagesOk(c, s.calls, s.timers, s.tq)
      && BlockedsOk(c, s.calls, s.ports)
  {
    PendSVKeeps(s.core);
    SwitchFrame(s.core, INIT);
    var c := PendSV(s.core);
    forall t | 0 <= t < |s.calls|
      ensures CallOk(s.calls[t], t, c.tasks[t], t == c.running, c.nest)
      ensures CallLinked(s.calls[t], t, c.tasks[t], s.timers, s.ports)
      ensures StageOk(s.calls[t], c.tasks[t], s.timers, s.tq)
      ensures BlockedOk(t, c.tasks[t], s.calls[t], s.ports)
    {
      SwitchFrame(s.core, t);
      assert CallOk(s.calls[t], t, s.core.tasks[t], t == s.core.running, s.core.nest);
      assert CallLinked(s.calls[t], t, s.core.tasks[t], s.timers, s.ports);
      assert StageOk(s.calls[t], s.core.tasks[t], s.timers, s.tq);
      assert BlockedOk(t, s.core.tasks[t], s.calls[t], s.ports);
    }
  }

  // -- The running task moves inside its own kernel call --

  // Everything the invariant says about task t.
  ghost predicate TaskLinked(s: State, t: TaskId)
    requires |s.calls| == |s.core.tasks| && t < |s.calls|
  {
    && CallOk(s.calls[t], t, s.core.tasks[t], t == s.core.running, s.core.nest)
    && CallLinked(s.calls[t], t, s.core.tasks[t], s.timers, s.ports)
    && StageOk(s.calls[t], s.core.tasks[t], s.timers, s.tq)
    && BlockedOk(t, s.core.tasks[t], s.calls[t], s.ports)
  }

  // The invariant, except for the running task's own call.
  ghost predicate Others(s: State) {
    && Inv(s.core)
    && |s.calls| == |s.core.tasks|
    && TimersOk(|s.core.tasks|, s.timers, s.tq, s.stamps)
    && SemsOk(|s.core.tasks|, s.sems)
    && PortsOk(|s.core.tasks|, s.ports)
    && (forall t :: 0 <= t < |s.calls| && t != Me(s) ==> TaskLinked(s, t))
  }

  lemma KInvIsOthers(s: State)
    ensures KInv(s) <==> Others(s) && TaskLinked(s, Me(s))
  {
    if KInv(s) {
      forall t | 0 <= t < |s.calls| ensures TaskLinked(s, t) {
        assert CallOk(s.calls[t], t, s.core.tasks[t], t == s.core.running, s.core.nest);
        assert StageOk(s.calls[t], s.core.tasks[t], s.timers, s.tq);
        assert BlockedOk(t, s.core.tasks[t], s.calls[t], s.ports);
      }
    } else if Others(s) && TaskLinked(s, Me(s)) {
      forall t | 0 <= t < |s.calls|
        ensures CallOk(s.calls[t], t, s.core.tasks[t], t == s.core.running, s.core.nest)
        ensures CallLinked(s.calls[t], t, s.core.tasks[t], s.timers, s.ports)
        ensures StageOk(s.calls[t], s.core.tasks[t], s.timers, s.tq)
        ensures BlockedOk(t, s.core.tasks[t], s.calls[t], s.ports)
      {
        assert TaskLinked(s, t);
      }
      assert KInv(s);
    }
  }

  // The same for a state that differs in the running task and its call alone.
  lemma OthersFrame(s: State, s': State)
    requires Others(s) && Inv(s'.core)
    requires s' == s.(core := s'.core, calls := s'.calls)
    requires Me(s') == Me(s) && |s'.calls| == |s.calls| && |s'.core.tasks| == |s.core.tasks|
    requires forall t :: 0 <= t < |s.calls| && t != Me(s) ==>
      s'.calls[t] == s.calls[t] && s'.core.tasks[t] == s.core.tasks[t]
    ensures Others(s')
  {
    forall t | 0 <= t < |s'.calls| && t != Me(s') ensures TaskLinked(s', t) {
      assert TaskLinked(s, t);
    }
  }

  // The running task is between the regions of a call that sits `depth` disables deep.
  ghost predicate Inside(s: State, call: Call, depth: int) {
    && Others(s)
    && Run(s.core).phase == Idle
    && !call.User? && call.entry >= -1
    && s.core.nest == call.entry + depth
  }

  lemma ReturnStep(s: State, call: Call, last: Result)
    requires Inside(s, call, 0)
    ensures KInv(SetCall(s, User(last)))
  {
    var s' := SetCall(s, User(last));
    OthersFrame(s, s');
    KInvIsOthers(s');
  }

  lemma BlockStep(s: State, sigs: Signals, call: Call)
    requires Inside(s, call, Depth(call) - 1) && Me(s) != INIT && InSignalWait(call)
    requires sigs * Run(s.core).sigRecvd == {}
    requires call.InSem? ==> sigs == SIGF_SINGLE
    requires call.InPort? ==> call.port < |s.ports| && s.ports[call.port].owner == Me(s)
                              && s.ports[call.port].signal == sigs && s.ports[call.port].queue == []
    requires call.InTimer? ==> CallLinked(call, Me(s), Run(s.core), s.timers, s.ports)
                               && StageOk(call, Run(s.core), s.timers, s.tq) && s.timers[call.timer].signal == sigs
    ensures KInv(SetCall(s.(core := WaitEnter(s.core, sigs)), call))
  {
    WaitEnterKeeps(s.core, sigs);
    var s' := SetCall(s.(core := WaitEnter(s.core, sigs)), call);
    OthersFrame(s, s');
    assert CallOk(call, Me(s), Run(s'.core), true, s'.core.nest);
    KInvIsOthers(s');
  }

  lemma PeekStep(s: State, p: PortId, entry: int)
    requires Inside(s, InPort(p, entry), 1) && s.calls[Me(s)] == InPort(p, entry)
    requires p < |s.ports| && s.ports[p].owner == Me(s) != INIT && s.ports[p].queue != []
    ensures Sane(s) && KInv(PortLoop(s, p))
  {
    var s1 := s.(core := s.core.(nest := s.core.nest - 1));
    NestKeeps(s.core, s.core.nest - 1);
    OthersFrame(s, s1);
    ReturnStep(s1, InPort(p, entry), Peeked(s.ports[p].queue[0]));
  }

  lemma PortLoopStep(s: State, p: PortId, entry: int)
    requires Inside(s, InPort(p, entry), 1) && s.calls[Me(s)] == InPort(p, entry)
    requires p < |s.ports| && s.ports[p].owner == Me(s) != INIT
    ensures Sane(s) && KInv(PortLoop(s, p))
    decreases s.ports[p].signal * Run(s.core).sigRecvd != {}
  {
    var sig := s.ports[p].signal;
    if s.ports[p].queue != [] {
      PeekStep(s, p, entry);
    } else {
      var s1 := s.(core := WaitEnter(s.core, sig));
      if sig * Run(s.core).sigRecvd != {} {
        WaitEnterKeeps(s.core, sig);
        OthersFrame(s, s1);
        assert sig * Run(s1.core).sigRecvd == {};
        PortLoopStep(s1, p, entry);
      } else {
        BlockStep(s, sig, InPort(p, entry));
        assert SetCall(s1, InPort(p, entry)) == s1;
      }
    }
  }

  lemma AfterWaitStep(s: State, got: Signals)
    requires Me(s) < |s.calls| && InSignalWait(s.calls[Me(s)])
    requires Inside(s, s.calls[Me(s)], Depth(s.calls[Me(s)]) - 1) && Me(s) != INIT
    requires CallLinked(s.calls[Me(s)], Me(s), Run(s.core), s.timers, s.ports)
    requires s.calls[Me(s)].InTimer? ==>
      StageOk(s.calls[Me(s)].(stage := Releasing), Run(s.core), s.timers, s.tq)
    ensures Sane(s) && KInv(AfterWait(s, got))
  {
    match s.calls[Me(s)]
    case User(_) =>
    case InWait(_) => ReturnStep(s, s.calls[Me(s)], Received(got));
    case InSem(_, _, _) => ReturnStep(s, s.calls[Me(s)], NoResult);
    case InPort(p, e) => PortLoopStep(s, p, e);
    case InTimer(_, _, _, _, _, _, _, _) =>
      var s' := SetCall(s, s.calls[Me(s)].(stage := Releasing));
      OthersFrame(s, s');
      KInvIsOthers(s');
  }

  lemma WaitCallStep(s: State, sigs: Signals, call: Call)
    requires Inside(s, call, 0) && Me(s) != INIT && (call.InWait? || (call.InSem? && !call.asking && sigs == SIGF_SINGLE))
    ensures Sane(s) && KInv(WaitCall(s, sigs, call))
  {
    var got := sigs * Run(s.core).sigRecvd;
    var s1 := SetCall(s.(core := WaitEnter(s.core, sigs)), call);
    if got != {} {
      WaitEnterKeeps(s.core, sigs);
      OthersFrame(s, s1);
      AfterWaitStep(s1, got);
    } else {
      BlockStep(s, sigs, call);
    }
  }

  lemma KickStep(s: State)
    requires KInv(s) && Run(s.core).phase.Window?
    ensures KInv(s.(core := Kick(s.core)))
  {
    KInvIsOthers(s);
    KickKeeps(s.core);
    var s' := s.(core := Kick(s.core));
    OthersFrame(s, s');
    KInvIsOthers(s');
  }

  lemma ResumeStep(s: State)
    requires KInv(s) && Enabled(s, Proceed) && Run(s.core).phase.Kicked?
    ensures Linked(s) && KInv(ApplyProceed(s))
  {
    KInvLinked(s);
    KInvIsOthers(s);
    ResumeKeeps(s.core);
    var call := s.calls[Me(s)];
    assert CallOk(call, Me(s), Run(s.core), true, s.core.nest);
    var s1 := s.(core := Resume(s.core));
    OthersFrame(s, s1);
    assert StageOk(call, Run(s.core), s.timers, s.tq);
    AfterWaitStep(s1, Run(s.core).phase.sigs * Run(s.core).sigRecvd);
  }
}
