// Signal allocation: what signal_allocate answers, and who holds which signal.
module Allocations {
  import opened Queues
  import opened Scheduler
  import opened SchedulerInv
  import opened SchedulerOrder
  import opened Machine
  import opened MachineInv
  import opened MachineSteps
  import opened MachineTimers
  import opened MachineRuns

  // signal_allocate's answer and its effect, success and failure alike.
  lemma AllocateAnswer(c: Core, request: int)
    requires c.running < |c.tasks| && -1 <= request < SIGNALS_WIDTH
    ensures var u, u', n := Run(c), Run(Allocate(c, request)), Choose(Run(c).sigAlloc, request).0;
      && (request >= 0 ==> n == if request in u.sigAlloc then -1 else request)
      && (request == -1 ==>
           && (n == -1 <==> forall j: nat :: j < SIGNALS_WIDTH ==> j in u.sigAlloc)
           && (forall j: nat :: n < j < SIGNALS_WIDTH ==> j in u.sigAlloc))
      && (n >= 0 ==> n !in u.sigAlloc && u'.sigAlloc == u.sigAlloc + {n} && n !in u'.sigRecvd)
      && (n == -1 ==> u'.sigAlloc == u.sigAlloc)
  {
    var u, n := Run(c), Choose(Run(c).sigAlloc, request).0;
    if n == -1 && request == -1 { assert 0 in u.sigAlloc; }
  }

  // A failing signal_allocate loses a pending signal exactly when the last one it tried
  // is pending: the requested one, or SIGF_SINGLE when any would have done.
  lemma FailedAllocateLosesExactly(c: Core, request: int)
    requires c.running < |c.tasks| && -1 <= request < SIGNALS_WIDTH
    requires Choose(Run(c).sigAlloc, request).0 == -1
    ensures var tried := if request >= 0 then request else 0;
      Run(Allocate(c, request)).sigRecvd == Run(c).sigRecvd <==> tried !in Run(c).sigRecvd
  {
    var tried := if request >= 0 then request else 0;
    assert tried in Run(c).sigRecvd ==> tried !in Run(Allocate(c, request)).sigRecvd;
  }

  // A task's allocation requests and frees in any order.
  datatype AllocOp = AllocOp(request: int) | FreeOp(sigs: Signals)

  // `live`: the signals handed out and not freed since, in order of allocation.
  datatype Handles = Handles(alloc: Signals, live: seq<nat>)

  function Remaining(live: seq<nat>, sigs: Signals): seq<nat> {
    if live == [] then []
    else (if live[0] in sigs then [] else [live[0]]) + Remaining(live[1..], sigs)
  }

  predicate AllocEnabled(h: Handles, op: AllocOp) {
    match op
    case AllocOp(n) => -1 <= n < SIGNALS_WIDTH
    case FreeOp(sigs) => sigs * SIGF_SINGLE == {} && sigs <= h.alloc
  }

  function AllocStep(h: Handles, op: AllocOp): Handles
    requires AllocEnabled(h, op)
  {
    match op
    case AllocOp(request) =>
      var (n, target) := Choose(h.alloc, request);
      Handles(h.alloc + target, if n == -1 then h.live else h.live + [n])
    case FreeOp(sigs) => Handles(h.alloc - sigs, Remaining(h.live, sigs))
  }

  ghost predicate AllocLeads(h: Handles, ops: seq<AllocOp>, h': Handles)
    decreases |ops|
  {
    if ops == [] then h == h'
    else AllocEnabled(h, ops[0]) && AllocLeads(AllocStep(h, ops[0]), ops[1..], h')
  }

  ghost predicate HandlesOk(h: Handles) {
    && NoDup(h.live)
    && (forall n :: n in h.live ==> 0 < n < SIGNALS_WIDTH)
    && h.alloc == SIGF_SINGLE + set n | n in h.live
  }

  lemma {:induction false} RemainingIsExact(live: seq<nat>, sigs: Signals)
    requires NoDup(live)
    ensures NoDup(Remaining(live, sigs))
    ensures forall n :: n in Remaining(live, sigs) <==> n in live && n !in sigs
  {
    if live != [] {
      RemainingIsExact(live[1..], sigs);
      assert live == [live[0]] + live[1..];
      assert live[0] !in live[1..];
    }
  }

  lemma AllocStepKeeps(h: Handles, op: AllocOp)
    requires HandlesOk(h) && AllocEnabled(h, op)
    ensures HandlesOk(AllocStep(h, op))
  {
    var h' := AllocStep(h, op);
    match op
    case AllocOp(request) =>
      var (n, target) := Choose(h.alloc, request);
      assert 0 in h.alloc;
      if n != -1 {
        assert n !in h.live;
        assert forall x :: x in h'.live <==> x == n || x in h.live;
      }
    case FreeOp(sigs) =>
      RemainingIsExact(h.live, sigs);
      assert 0 in sigs ==> 0 in sigs * SIGF_SINGLE;
  }

  lemma {:induction false} AllocRunKeeps(h: Handles, ops: seq<AllocOp>, h': Handles)
    requires HandlesOk(h) && AllocLeads(h, ops, h')
    ensures HandlesOk(h')
    decreases |ops|
  {
    if ops != [] {
      AllocStepKeeps(h, ops[0]);
      AllocRunKeeps(AllocStep(h, ops[0]), ops[1..], h');
    }
  }

  lemma {:induction false} DistinctBelow(q: seq<nat>, n: nat)
    requires NoDup(q) && forall x :: x in q ==> 0 < x < n
    ensures n > 0 ==> |q| <= n - 1
    decreases n
  {
    if q != [] {
      assert q[0] in q;
      WithoutIsExact(q, n - 1);
      DistinctBelow(Without(q, n - 1), n - 1);
    }
  }

  // What the actions of a run allocate and free for task t, from h on.
  ghost function History(s: State, actions: seq<Action>, t: TaskId, h: Handles): Handles
    decreases |actions|
  {
    if actions == [] || !Linked(s) || !Enabled(s, actions[0]) then h
    else History(Apply(s, actions[0]), actions[1..], t, Advanced(s, actions[0], t, h))
  }

  // The allocation or release in an action of the running task, its timers' and ports'
  // included.
  function OpOf(s: State, a: Action): Option<AllocOp>
    requires Me(s) < |s.calls|
  {
    match a
    case SignalAllocate(n) => Some(AllocOp(n))
    case TimerAllocate => Some(AllocOp(-1))
    case TimerDelay(_) => Some(AllocOp(-1))
    case PortInit => Some(AllocOp(-1))
    case SignalFree(sigs) => Some(FreeOp(sigs))
    case TimerFree(tm) => if tm < |s.timers| then Some(FreeOp(s.timers[tm].signal)) else None
    case Proceed =>
      match s.calls[Me(s)] {
        case InTimer(tm, Releasing, _, _, _, _, _, _) =>
          if tm < |s.timers| then Some(FreeOp(s.timers[tm].signal)) else None
        case _ => None
      }
    case _ => None
  }

  function Advanced(s: State, a: Action, t: TaskId, h: Handles): Handles
    requires Me(s) < |s.calls|
  {
    if t == Me(s) && OpOf(s, a).Some? && AllocEnabled(h, OpOf(s, a).value) then AllocStep(h, OpOf(s, a).value) else h
  }

  // h accounts for task t's allocation word; a task that does not exist yet has made none.
  ghost predicate Accounts(s: State, t: TaskId, h: Handles) {
    && HandlesOk(h)
    && h.alloc == if t < |s.core.tasks| then s.core.tasks[t].sigAlloc else SIGF_SINGLE
  }

  // -- What the actions do to allocation words --

  ghost predicate SameAlloc(c: Core, d: Core) {
    |c.tasks| <= |d.tasks| && forall t :: 0 <= t < |c.tasks| ==> d.tasks[t].sigAlloc == c.tasks[t].sigAlloc
  }

  lemma WaitEnterAlloc(c: Core, sigs: Signals)
    requires c.running < |c.tasks|
    ensures SameAlloc(c, WaitEnter(c, sigs))
  {}

  lemma PortLoopAlloc(s: State, p: PortId)
    requires Sane(s) && p < |s.ports|
    ensures SameAlloc(s.core, PortLoop(s, p).core)
    decreases s.ports[p].signal * Run(s.core).sigRecvd != {}
  {
    if s.ports[p].queue == [] && s.ports[p].signal * Run(s.core).sigRecvd != {} {
      PortLoopAlloc(s.(core := WaitEnter(s.core, s.ports[p].signal)), p);
    }
  }

  lemma AfterWaitAlloc(s: State, got: Signals)
    requires Sane(s)
    requires s.calls[Me(s)].InPort? ==> s.calls[Me(s)].port < |s.ports|
    ensures SameAlloc(s.core, AfterWait(s, got).core)
  {
    if s.calls[Me(s)].InPort? { PortLoopAlloc(s, s.calls[Me(s)].port); }
  }

  lemma WaitCallAlloc(s: State, sigs: Signals, call: Call)
    requires Sane(s) && (call.InPort? ==> call.port < |s.ports|)
    ensures SameAlloc(s.core, WaitCall(s, sigs, call).core)
  {
    if sigs * Run(s.core).sigRecvd != {} {
      AfterWaitAlloc(SetCall(s.(core := WaitEnter(s.core, sigs)), call), sigs * Run(s.core).sigRecvd);
    }
  }

  lemma SendAlloc(c: Core, t: TaskId, sigs: Signals)
    requires t < |c.tasks| && c.running < |c.tasks| && InRange(c.ready, c.tasks)
    ensures SameAlloc(c, Send(c, t, sigs))
  {}

  lemma {:induction false} PollAlloc(c: Core, timers: seq<Timer>, tq: seq<TimerId>, now: Ticks)
    requires Pollable(c, timers, tq)
    ensures SameAlloc(c, Poll(c, timers, tq, now).0)
    decreases |tq|
  {
    if tq != [] && timers[tq[0]].tick <= now {
      var c1 := SendHead(c, timers, tq);
      SendAlloc(c, Owner(timers[tq[0]]), timers[tq[0]].signal);
      PollAlloc(c1, timers[tq[0] := Expired(timers[tq[0]])], tq[1..], now);
    }
  }

  // The running task's word after an allocation or release.
  ghost predicate AllocChanges(s: State, d: Core, a: Action)
    requires Me(s) < |s.calls| == |s.core.tasks|
  {
    && |s.core.tasks| <= |d.tasks|
    && (forall t :: 0 <= t < |s.core.tasks| && t != Me(s) ==> d.tasks[t].sigAlloc == s.core.tasks[t].sigAlloc)
    && (match OpOf(s, a)
        case Some(op) =>
          var h := Handles(Run(s.core).sigAlloc, []);
          AllocEnabled(h, op) && d.tasks[Me(s)].sigAlloc == AllocStep(h, op).alloc
        case None => d.tasks[Me(s)].sigAlloc == Run(s.core).sigAlloc)
    && (forall t :: |s.core.tasks| <= t < |d.tasks| ==> d.tasks[t].sigAlloc == SIGF_SINGLE)
  }

  lemma TaskAlloc(s: State, a: Action)
    requires Linked(s) && Enabled(s, a) && TaskAction(a)
    ensures AllocChanges(s, ApplyTask(s, a).core, a)
  {
    if a.SignalWait? { WaitCallSize(s, a.sigs, InWait(s.core.nest)); WaitCallAlloc(s, a.sigs, InWait(s.core.nest)); }
    if a.SignalSend? { SendAlloc(s.core, a.task, a.sigs); }
  }

  lemma WaitCallSize(s: State, sigs: Signals, call: Call)
    requires Sane(s) && !call.InPort?
    ensures |WaitCall(s, sigs, call).core.tasks| == |s.core.tasks|
  {}

  lemma PortLoopSize(s: State, p: PortId)
    requires Sane(s) && p < |s.ports|
    ensures |PortLoop(s, p).core.tasks| == |s.core.tasks|
    decreases s.ports[p].signal * Run(s.core).sigRecvd != {}
  {
    if s.ports[p].queue == [] && s.ports[p].signal * Run(s.core).sigRecvd != {} {
      PortLoopSize(s.(core := WaitEnter(s.core, s.ports[p].signal)), p);
    }
  }

  lemma SemAlloc(s: State, a: Action)
    requires Linked(s) && Enabled(s, a) && SemAction(a)
    ensures AllocChanges(s, ApplySem(s, a).core, a)
  {
    if a.SemSignal? && Dequeued(s.sems[a.sem]).Some? {
      SendAlloc(s.core, Dequeued(s.sems[a.sem]).value.waiter, Dequeued(s.sems[a.sem]).value.signal);
    }
  }

  lemma PortAlloc(s: State, a: Action)
    requires Linked(s) && Enabled(s, a) && MsgAction(a)
    ensures AllocChanges(s, ApplyPort(s, a).core, a)
  {
    match a
    case PortWait(p) =>
      var s1 := SetCall(s.(core := s.core.(nest := s.core.nest + 1)), InPort(p, s.core.nest));
      PortLoopAlloc(s1, p);
      PortLoopSize(s1, p);
    case PortSend(_, p, _) =>
      if Signals?(s.ports[p]) { SendAlloc(s.core, s.ports[p].task.value, s.ports[p].signal); }
    case _ =>
  }

  lemma TimerAlloc(s: State, a: Action)
    requires Linked(s) && Enabled(s, a) && TimerAction(a)
    ensures AllocChanges(s, ApplyTimer(s, a).core, a)
  {}

  lemma TimerStepAlloc(s: State)
    requires KInv(s) && s.calls[Me(s)].InTimer? && Run(s.core).phase == Idle
    ensures Sane(s) && s.calls[Me(s)].timer < |s.timers|
    ensures AllocChanges(s, TimerStep(s).core, Proceed)
  {
    MyTimer(s);
    var call := s.calls[Me(s)];
    if call.stage == Asking {
      WaitCallAlloc(s, s.timers[call.timer].signal, call.(stage := Blocking));
      WaitCallSize(s, s.timers[call.timer].signal, call.(stage := Blocking));
    }
  }

  lemma ResumeAlloc(s: State)
    requires KInv(s) && Linked(s) && Enabled(s, Proceed) && Run(s.core).phase.Kicked?
    ensures AllocChanges(s, ApplyProceed(s).core, Proceed)
  {
    ResumeKeeps(s.core);
    var call, s1 := s.calls[Me(s)], s.(core := Resume(s.core));
    assert CallOk(call, Me(s), Run(s.core), true, s.core.nest);
    AfterWaitAlloc(s1, Run(s.core).phase.sigs * Run(s.core).sigRecvd);
    if call.InPort? { PortLoopSize(s1, call.port); }
  }

  lemma ProceedAlloc(s: State)
    requires KInv(s) && Linked(s) && Enabled(s, Proceed)
    ensures AllocChanges(s, ApplyProceed(s).core, Proceed)
  {
    var call := s.calls[Me(s)];
    assert CallOk(call, Me(s), Run(s.core), true, s.core.nest);
    match Run(s.core).phase
    case Window(_, _) =>
    case Kicked(_, _) => ResumeAlloc(s);
    case Idle =>
      if call.InTimer? {
        TimerStepAlloc(s);
      } else {
        WaitCallAlloc(s, SIGF_SINGLE, call.(asking := false));
        WaitCallSize(s, SIGF_SINGLE, call.(asking := false));
      }
  }

  lemma SwitchAlloc(c: Core)
    requires CanSwitch(c)
    ensures |PendSV(c).tasks| == |c.tasks| && SameAlloc(c, PendSV(c))
  {
    SwitchFrame(c, c.running);
    forall t | 0 <= t < |c.tasks| ensures PendSV(c).tasks[t].sigAlloc == c.tasks[t].sigAlloc {
      SwitchFrame(c, t);
    }
  }

  lemma IrqAlloc(s: State, a: Action)
    requires KInv(s) && Linked(s) && Enabled(s, a) && (a.Tim2? || a.SysTickIrq? || a.PendSVIrq?)
    ensures AllocChanges(s, ApplyIrq(s, a).core, a)
  {
    match a
    case Tim2 => PollAlloc(s.core, s.timers, s.tq, AddTicks(s.clock, 1));
    case PendSVIrq => SwitchAlloc(s.core);
    case SysTickIrq =>
  }

  // Every action changes the allocation words as the allocations and releases in it say.
  lemma ActionAlloc(s: State, a: Action)
    requires KInv(s) && Linked(s) && Enabled(s, a)
    ensures AllocChanges(s, Apply(s, a).core, a)
  {
    if TaskAction(a) {
      TaskAlloc(s, a);
    } else if SemAction(a) {
      SemAlloc(s, a);
    } else if MsgAction(a) {
      PortAlloc(s, a);
    } else if TimerAction(a) {
      TimerAlloc(s, a);
    } else if a.Proceed? {
      ProceedAlloc(s);
    } else {
      IrqAlloc(s, a);
    }
  }

  // -- Over whole runs --

  lemma AdvancedAccounts(s: State, a: Action, t: TaskId, h: Handles, s': State)
    requires Sane(s) && AllocChanges(s, s'.core, a) && Accounts(s, t, h)
    ensures Accounts(s', t, Advanced(s, a, t, h))
  {
    if t == Me(s) && OpOf(s, a).Some? {
      AllocStepKeeps(h, OpOf(s, a).value);
    }
  }

  lemma {:induction false} HistoryAccounts(s: State, actions: seq<Action>, t: TaskId, h: Handles, s': State)
    requires KInv(s) && Leads(s, actions, s') && Accounts(s, t, h)
    ensures Accounts(s', t, History(s, actions, t, h))
    decreases |actions|
  {
    if actions != [] {
      ActionKeeps(s, actions[0]);
      ActionAlloc(s, actions[0]);
      AdvancedAccounts(s, actions[0], t, h, Apply(s, actions[0]));
      HistoryAccounts(Apply(s, actions[0]), actions[1..], t, Advanced(s, actions[0], t, h), s');
    }
  }

  lemma HandlesAreDistinct(h: Handles)
    requires HandlesOk(h)
    ensures NoDup(h.live) && |h.live| <= SIGNALS_WIDTH - 1 && 0 !in h.live
    ensures h.alloc == SIGF_SINGLE + set n | n in h.live
  {
    DistinctBelow(h.live, SIGNALS_WIDTH);
  }

  // Whatever a task allocates and frees in a run of the kernel, its timers and ports
  // included: live allocations never share a signal, SIGF_SINGLE is never handed out and
  // stays allocated, so at most 15 are live, and its allocation word says exactly which.
  lemma AllocationsAreDistinct(actions: seq<Action>, s: State, t: TaskId)
    requires Leads(Boot(), actions, s) && t < |s.core.tasks|
    ensures var h := History(Boot(), actions, t, Handles(SIGF_SINGLE, []));
      && NoDup(h.live) && |h.live| <= SIGNALS_WIDTH - 1 && 0 !in h.live
      && s.core.tasks[t].sigAlloc == SIGF_SINGLE + set n | n in h.live
  {
    var h0 := Handles(SIGF_SINGLE, []);
    BootKInv();
    BootAccounts(Boot(), t);
    HistoryAccounts(Boot(), actions, t, h0, s);
    HandlesAreDistinct(History(Boot(), actions, t, h0));
  }

  lemma BootAccounts(s: State, t: TaskId)
    requires s == Boot()
    ensures Accounts(s, t, Handles(SIGF_SINGLE, []))
  {
    var none: seq<nat> := [];
    assert (set n | n in none) == {};
    assert s.core.tasks == [NewTask(TASK_PRIO_EXCLUSIVE).(state := Running)];
  }

  // -- The writes of signal_allocate with interrupts enabled --

  // sig_alloc |= target and sig_wait &= ~target of task t, which is not waiting.
  function MarkTaken(c: Core, t: TaskId, target: Signals): Core
    requires t < |c.tasks|
  {
    var u := c.tasks[t];
    SetTask(c, t, u.(sigAlloc := u.sigAlloc + target, sigWait := u.sigWait - target))
  }

  // They commute with everything that may come between them and the disabled region:
  // other tasks' sends, interrupts and switches neither read nor write these two words of
  // a task that is not waiting.
  lemma MarkCommutesWithSend(c: Core, t: TaskId, target: Signals, x: TaskId, sigs: Signals)
    requires InBounds(c) && t < |c.tasks| && x < |c.tasks| && c.tasks[t].state != Waiting
    ensures InBounds(MarkTaken(c, t, target))
    ensures Send(MarkTaken(c, t, target), x, sigs) == MarkTaken(Send(c, x, sigs), t, target)
  {
    var u := c.tasks[x].(sigRecvd := c.tasks[x].sigRecvd + sigs);
    var c1 := SetTask(c, x, u);
    var d1 := MarkTaken(c1, t, target);
    assert SetTask(MarkTaken(c, t, target), x, d1.tasks[x]).tasks == d1.tasks;
    if Wakes(c, x, sigs) {
      MarkCommutesWithReady(c1.(waiting := Without(c1.waiting, x)), t, target, x);
    }
  }

  lemma MarkCommutesWithReady(c: Core, t: TaskId, target: Signals, x: TaskId)
    requires InBounds(c) && t < |c.tasks| && x < |c.tasks|
    ensures InBounds(MarkTaken(c, t, target))
    ensures MakeReady(MarkTaken(c, t, target), x) == MarkTaken(MakeReady(c, x), t, target)
  {
    var d := MarkTaken(c, t, target);
    assert Prios(d.ready, d.tasks) == Prios(c.ready, c.tasks);
    assert MakeReady(d, x).tasks == MarkTaken(MakeReady(c, x), t, target).tasks;
  }

  lemma MarkCommutesWithSwitch(c: Core, t: TaskId, target: Signals)
    requires CanSwitch(c) && t < |c.tasks|
    ensures t < |PendSV(c).tasks| && CanSwitch(MarkTaken(c, t, target))
    ensures PendSV(MarkTaken(c, t, target)) == MarkTaken(PendSV(c), t, target)
  {
    if Run(c).state == Running { MarkCommutesWithReady(c, t, target, c.running); }
    var d := MarkTaken(c, t, target);
    assert Requeue(d) == MarkTaken(Requeue(c), t, target);
    MarkCommutesWithSwitchIn(Requeue(c), t, target);
  }

  lemma MarkCommutesWithSwitchIn(c: Core, t: TaskId, target: Signals)
    requires InBounds(c) && c.ready != [] && t < |c.tasks|
    ensures SwitchIn(MarkTaken(c, t, target)) == MarkTaken(SwitchIn(c), t, target)
  {
    assert SwitchIn(MarkTaken(c, t, target)).tasks == MarkTaken(SwitchIn(c), t, target).tasks;
  }
}
