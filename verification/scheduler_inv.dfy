// What every scheduler operation keeps.
module SchedulerInv {
  import opened Queues
  import opened Scheduler

  // -- The invariant, whatever the order of the ready list --

  // A task is blocked exactly while none of the signals it waits for is pending.
  ghost predicate TaskOk(u: Task) {
    && SIGF_SINGLE <= u.sigAlloc
    && if u.phase == Idle then u.state != Waiting
       else
         && u.phase.nestcnt >= 0
         && u.state != Initialized
         && u.sigWait == u.phase.sigs
         && (u.state == Waiting <==> u.phase.sigs * u.sigRecvd == {})
  }

  ghost predicate RunningOk(c: Core)
    requires Wf(c)
  {
    && c.nest >= -1
    && (Run(c).phase == Idle ==> Run(c).state == Running)
    && (Run(c).phase != Idle ==> c.nest == -1)
    && (Run(c).phase.Kicked? && Run(c).state != Running ==> c.pendsv)
  }

  ghost predicate InitOk(c: Core)
    requires Wf(c)
  {
    c.tasks[INIT].phase == Idle && c.tasks[INIT].state != Initialized
  }

  ghost predicate Inv(c: Core) {
    && Wf(c)
    && RunningOk(c)
    && InitOk(c)
    && (forall t :: 0 <= t < |c.tasks| ==> TaskOk(c.tasks[t]))
    && (forall t :: 0 <= t < |c.tasks| && t != c.running ==> c.tasks[t].nest == -1)
    && (c.pendsv || 1 <= c.elapsed <= QUANTUM) && c.elapsed < ELAPSED_RANGE
  }

  // -- Queue lemmas --

  lemma HoldsInsert(q: seq<TaskId>, ts: seq<Task>, st: RunState, t: TaskId, u: Task, i: nat)
    requires Holds(q, ts, st) && t < |ts| && i <= |q|
    requires ts[t].state != st && u.state == st
    ensures Holds(InsertAt(q, i, t), ts[t := u], st)
  {
    InsertAtIsExact(q, i, t);
    var r := InsertAt(q, i, t);
    assert forall j :: 0 <= j < |r| ==> r[j] in r;
  }

  lemma HoldsRemove(q: seq<TaskId>, ts: seq<Task>, st: RunState, t: TaskId, u: Task)
    requires Holds(q, ts, st) && t < |ts| && u.state != st
    ensures Holds(Without(q, t), ts[t := u], st)
  {
    WithoutIsExact(q, t);
    var r := Without(q, t);
    assert forall j :: 0 <= j < |r| ==> r[j] in r && r[j] in q;
  }

  lemma HoldsFrame(q: seq<TaskId>, ts: seq<Task>, st: RunState, t: TaskId, u: Task)
    requires Holds(q, ts, st) && t < |ts|
    requires u.state == st <==> ts[t].state == st
    ensures Holds(q, ts[t := u], st)
  {}

  // -- Preservation, operation by operation --

  // MakeReady on a task that is in neither queue.
  lemma MakeReadyKeeps(c: Core, t: TaskId)
    requires Wf(c) && t < |c.tasks|
    requires c.tasks[t].state == Initialized || c.tasks[t].state == Running
    ensures Wf(MakeReady(c, t))
    ensures forall x :: x in MakeReady(c, t).ready <==> x == t || x in c.ready
  {
    var u := c.tasks[t].(state := Ready, arrival := c.arrivals);
    var k := Slot(Prios(c.ready, c.tasks), u.prio);
    HoldsInsert(c.ready, c.tasks, Ready, t, u, k);
    HoldsFrame(c.waiting, c.tasks, Waiting, t, u);
    InsertAtIsExact(c.ready, k, t);
  }

  lemma CreateKeeps(c: Core, prio: Prio)
    requires Inv(c)
    ensures Inv(Create(c, prio))
  {}

  lemma ScheduleKeeps(c: Core, t: TaskId)
    requires Inv(c) && t < |c.tasks| && c.tasks[t].state == Initialized
    ensures Inv(Schedule(c, t))
  {
    MakeReadyKeeps(c, t);
  }

  // Changing a field of task t other than its state.
  lemma SetTaskKeeps(c: Core, t: TaskId, u: Task)
    requires Inv(c) && t < |c.tasks| && TaskOk(u)
    requires u.state == c.tasks[t].state
    requires u.phase == c.tasks[t].phase && u.nest == c.tasks[t].nest
    ensures Inv(SetTask(c, t, u))
  {
    HoldsFrame(c.ready, c.tasks, Ready, t, u);
    HoldsFrame(c.waiting, c.tasks, Waiting, t, u);
  }

  lemma SetPrioKeeps(c: Core, t: TaskId, prio: Prio)
    requires Inv(c) && t < |c.tasks|
    ensures Inv(SetPrio(c, t, prio))
  {
    SetTaskKeeps(c, t, c.tasks[t].(prio := prio));
  }

  lemma SendKeeps(c: Core, t: TaskId, sigs: Signals)
    requires Inv(c) && t < |c.tasks|
    ensures Inv(Send(c, t, sigs))
  {
    var u0 := c.tasks[t];
    var u := u0.(sigRecvd := u0.sigRecvd + sigs);
    if Wakes(c, t, sigs) {
      WakeKeeps(c, t, sigs);
    } else {
      SetTaskKeeps(c, t, u);
    }
  }

  // The waking branch of signal_send, list by list.
  ghost predicate Wakes(c: Core, t: TaskId, sigs: Signals) {
    t < |c.tasks| && c.tasks[t].state == Waiting && sigs * c.tasks[t].sigWait != {}
  }

  lemma WakeKeepsQueues(c: Core, t: TaskId, sigs: Signals)
    requires Wf(c) && Wakes(c, t, sigs)
    ensures Wf(Send(c, t, sigs))
    ensures forall x :: x in Send(c, t, sigs).ready <==> x == t || x in c.ready
  {
    var u := c.tasks[t].(sigRecvd := c.tasks[t].sigRecvd + sigs);
    var v := u.(state := Ready, arrival := c.arrivals);
    var ts, k := c.tasks[t := u], Slot(Prios(c.ready, c.tasks[t := u]), u.prio);
    HoldsFrame(c.ready, c.tasks, Ready, t, u);
    HoldsInsert(c.ready, ts, Ready, t, v, k);
    InsertAtIsExact(c.ready, k, t);
    HoldsRemove(c.waiting, c.tasks, Waiting, t, v);
    assert c.tasks[t := v] == ts[t := v] == Send(c, t, sigs).tasks;
  }

  lemma WakeKeepsTasks(c: Core, t: TaskId, sigs: Signals, x: TaskId)
    requires c.running < |c.tasks| && InRange(c.ready, c.tasks) && Wakes(c, t, sigs)
    requires x < |c.tasks| && TaskOk(c.tasks[x])
    ensures TaskOk(Send(c, t, sigs).tasks[x])
  {
    if x == t { WakeMakesReady(c, t, sigs); }
  }

  lemma WakeKeeps(c: Core, t: TaskId, sigs: Signals)
    requires Inv(c) && Wakes(c, t, sigs)
    ensures Inv(Send(c, t, sigs))
  {
    WakeKeepsQueues(c, t, sigs);
    WakeKeepsRunning(c, t, sigs);
    forall x | 0 <= x < |c.tasks| ensures TaskOk(Send(c, t, sigs).tasks[x]) {
      WakeKeepsTasks(c, t, sigs, x);
    }
  }

  lemma WakeKeepsRunning(c: Core, t: TaskId, sigs: Signals)
    requires Wf(c) && RunningOk(c) && InitOk(c) && Wakes(c, t, sigs) && TaskOk(c.tasks[t])
    requires Wf(Send(c, t, sigs))
    ensures RunningOk(Send(c, t, sigs)) && InitOk(Send(c, t, sigs))
  {}

  lemma WakeMakesReady(c: Core, t: TaskId, sigs: Signals)
    requires c.running < |c.tasks| && InRange(c.ready, c.tasks) && Wakes(c, t, sigs) && TaskOk(c.tasks[t])
    ensures TaskOk(Send(c, t, sigs).tasks[t])
  {
    var u := c.tasks[t];
    var n :| n in sigs * u.sigWait;
    assert n in u.phase.sigs * (u.sigRecvd + sigs);
  }

  // The consuming branch of signal_wait's loop.
  lemma ConsumeKeeps(c: Core, sigs: Signals, n: int)
    requires Inv(c) && n >= 0 && Run(c).state == Running
    requires Run(c).phase == Idle || Run(c).phase == Kicked(sigs, n)
    requires sigs * Run(c).sigRecvd != {}
    ensures Inv(WaitTest(c, sigs, n))
  {
    var u := Run(c).(sigRecvd := Run(c).sigRecvd - sigs * Run(c).sigRecvd, phase := Idle);
    HoldsFrame(c.ready, c.tasks, Ready, c.running, u);
    HoldsFrame(c.waiting, c.tasks, Waiting, c.running, u);
  }

  // The blocking branch of signal_wait's loop.
  lemma BlockKeeps(c: Core, sigs: Signals, n: int)
    requires Inv(c) && n >= 0 && Run(c).state == Running && c.running != INIT
    requires Run(c).sigWait == sigs && sigs * Run(c).sigRecvd == {}
    ensures Inv(WaitTest(c, sigs, n))
  {
    var u := Run(c).(state := Waiting, phase := Window(sigs, n));
    HoldsInsert(c.waiting, c.tasks, Waiting, c.running, u, |c.waiting|);
    assert InsertAt(c.waiting, |c.waiting|, c.running) == c.waiting + [c.running];
    HoldsFrame(c.ready, c.tasks, Ready, c.running, u);
  }

  lemma SetWaitKeeps(c: Core, sigs: Signals)
    requires Inv(c) && Run(c).phase == Idle
    ensures Inv(SetTask(c, c.running, Run(c).(sigWait := sigs)))
  {
    SetTaskKeeps(c, c.running, Run(c).(sigWait := sigs));
  }

  lemma WaitTestKeeps(c: Core, sigs: Signals, n: int)
    requires Inv(c) && n >= 0 && Run(c).phase == Idle && Run(c).sigWait == sigs && c.running != INIT
    ensures Inv(WaitTest(c, sigs, n))
  {
    if sigs * Run(c).sigRecvd != {} {
      ConsumeKeeps(c, sigs, n);
    } else {
      BlockKeeps(c, sigs, n);
    }
  }

  lemma WaitEnterKeeps(c: Core, sigs: Signals)
    requires Inv(c) && Run(c).phase == Idle && c.running != INIT
    ensures Inv(WaitEnter(c, sigs))
  {
    SetWaitKeeps(c, sigs);
    NestIsValid(c);
    WaitTestKeeps(SetTask(c, c.running, Run(c).(sigWait := sigs)), sigs, c.nest + 1);
  }

  lemma NestIsValid(c: Core)
    requires Inv(c)
    ensures c.nest >= -1
  {}

  lemma KickKeeps(c: Core)
    requires Inv(c) && Run(c).phase.Window?
    ensures Inv(Kick(c))
  {
    var u := Run(c).(phase := Kicked(Run(c).phase.sigs, Run(c).phase.nestcnt));
    HoldsFrame(c.ready, c.tasks, Ready, c.running, u);
    HoldsFrame(c.waiting, c.tasks, Waiting, c.running, u);
  }

  // A task that runs again inside signal_wait always finds a requested signal:
  // the blocking loop never makes a second round.
  lemma ResumeKeeps(c: Core)
    requires Inv(c) && Run(c).phase.Kicked? && !c.pendsv
    ensures Inv(Resume(c))
    ensures Run(Resume(c)).phase == Idle
    ensures Run(c).phase.sigs * Run(c).sigRecvd != {}
  {
    ConsumeKeeps(c, Run(c).phase.sigs, Run(c).phase.nestcnt);
  }

  lemma SysTickKeeps(c: Core)
    requires Inv(c)
    ensures Inv(SysTick(c))
  {}

  lemma AllocateKeeps(c: Core, request: int)
    requires Inv(c) && Run(c).phase == Idle && -1 <= request < SIGNALS_WIDTH
    ensures Inv(Allocate(c, request))
  {
    var target := Choose(Run(c).sigAlloc, request).1;
    SetTaskKeeps(c, c.running, Run(Allocate(c, request)));
  }

  lemma FreeKeeps(c: Core, sigs: Signals)
    requires Inv(c) && Run(c).phase == Idle && sigs * SIGF_SINGLE == {}
    ensures Inv(Free(c, sigs))
  {
    assert 0 in sigs ==> 0 in sigs * SIGF_SINGLE;
    SetTaskKeeps(c, c.running, Run(Free(c, sigs)));
  }

  lemma NestKeeps(c: Core, n: int)
    requires Inv(c) && Run(c).phase == Idle && n >= -1
    ensures Inv(c.(nest := n))
  {}

  // -- The context switch --

  lemma RequeueKeeps(c: Core)
    requires Inv(c)
    ensures Wf(Requeue(c))
    ensures Run(Requeue(c)).state != Running
  {
    if Run(c).state == Running { MakeReadyKeeps(c, c.running); }
  }

  // PendSV always finds a task: the init task never waits, so it is in the
  // ready list whenever it is not the one being switched out.
  lemma PendSVFindsTask(c: Core)
    requires Inv(c)
    ensures CanSwitch(c)
  {
    RequeueKeeps(c);
    var c1 := Requeue(c);
    if c.running == INIT {
      assert c1.tasks[INIT].state == Ready;
      assert INIT in c1.ready;
    } else {
      assert c1.tasks[INIT].state == Ready;
      assert INIT in c1.ready;
    }
  }

  lemma PendSVKeeps(c: Core)
    requires Inv(c) && c.nest == -1
    ensures CanSwitch(c) && Inv(PendSV(c))
    ensures PendSV(c).nest == -1
  {
    PendSVFindsTask(c);
    RequeueKeeps(c);
    SwitchInKeeps(Requeue(c));
  }

  // Taking the head of the ready list and making it the running task.
  lemma HeadIsWithout(q: seq<TaskId>)
    requires q != []
    ensures q[0] in q && Without(q, q[0]) == q[1..]
  {
    assert IndexOf(q, q[0]) == 0;
  }

  lemma SwitchInKeepsQueues(c: Core)
    requires Wf(c) && c.ready != [] && Run(c).state != Running
    ensures Wf(SwitchIn(c))
  {
    var u := Run(c).(nest := c.nest);
    var ts := c.tasks[c.running := u];
    HoldsFrame(c.ready, c.tasks, Ready, c.running, u);
    HoldsFrame(c.waiting, c.tasks, Waiting, c.running, u);
    var head := c.ready[0];
    var v := ts[head].(state := Running);
    HeadIsWithout(c.ready);
    HoldsRemove(c.ready, ts, Ready, head, v);
    HoldsFrame(c.waiting, ts, Waiting, head, v);
  }

  ghost predicate HalfSwitched(c: Core) {
    && Wf(c) && InitOk(c)
    && c.ready != [] && c.nest == -1 && Run(c).state != Running
    && (forall t :: 0 <= t < |c.tasks| ==> TaskOk(c.tasks[t]))
    && (forall t :: 0 <= t < |c.tasks| && t != c.running ==> c.tasks[t].nest == -1)
  }

  lemma SwitchInKeeps(c: Core)
    requires HalfSwitched(c)
    ensures Inv(SwitchIn(c))
    ensures SwitchIn(c).nest == -1
  {
    SwitchInKeepsQueues(c);
  }
}
