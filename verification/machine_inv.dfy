// The invariant of the whole kernel.
module MachineInv {
  import opened Queues
  import opened Scheduler
  import opened SchedulerInv
  import opened Machine

  // -- Timers --

  function TimerRank(tm: Timer): Rank { Rank(Key(tm), tm.stamp) }

  ghost predicate TimersInRange(tq: seq<TimerId>, timers: seq<Timer>) {
    forall i :: 0 <= i < |tq| ==> tq[i] < |timers|
  }

  function TimerRanks(tq: seq<TimerId>, timers: seq<Timer>): (rs: seq<Rank>)
    requires TimersInRange(tq, timers)
    ensures |rs| == |tq| && forall i :: 0 <= i < |tq| ==> rs[i] == TimerRank(timers[tq[i]])
  {
    seq(|tq|, i requires 0 <= i < |tq| => TimerRank(timers[tq[i]]))
  }

  // The timer queue is sorted by tick, first come first served, without duplicates.
  ghost predicate TimerQueue(tq: seq<TimerId>, timers: seq<Timer>, stamps: nat) {
    && NoDup(tq)
    && TimersInRange(tq, timers)
    && Sorted(TimerRanks(tq, timers))
    && (forall i :: 0 <= i < |tq| ==> timers[tq[i]].stamp < stamps)
  }

  // A queued timer is owned and has entered once more than it has left. ADDED are the
  // queued timers and the aborted ones.
  ghost predicate TimerOk(tm: Timer, queued: bool, tasks: nat) {
    && Owner(tm) < tasks
    && (queued ==> tm.task.Some?)
    && (tm.status == Added <==> queued || tm.aborted) && !(queued && tm.aborted)
    && tm.added == tm.left + (if queued then 1 else 0)
  }

  ghost predicate TimersOk(tasks: nat, timers: seq<Timer>, tq: seq<TimerId>, stamps: nat) {
    && TimerQueue(tq, timers, stamps)
    && (forall tm :: 0 <= tm < |timers| ==> TimerOk(timers[tm], tm in tq, tasks))
  }

  // -- Calls --

  predicate InSignalWait(call: Call) {
    call.InWait? || (call.InSem? && !call.asking) || call.InPort? || (call.InTimer? && call.stage == Blocking)
  }

  // How deep the call had nested disable() when it reached signal_wait's own region.
  function Depth(call: Call): int {
    if call.InPort? then 2 else 1
  }

  // Every call can tell the nest count it was entered with: from the backup of the
  // signal_wait inside it, from id_nestcnt while it runs, and otherwise it is -1.
  ghost predicate CallOk(call: Call, t: TaskId, u: Task, running: bool, nest: int) {
    && (u.phase != Idle <==> InSignalWait(call))
    && (call.User? || (
         && call.entry >= -1
         && (InSignalWait(call) ==> u.phase.nestcnt == call.entry + Depth(call))
         && (!InSignalWait(call) ==> call.entry == if running then nest else -1)))
  }

  ghost predicate CallLinked(call: Call, t: TaskId, u: Task, timers: seq<Timer>, ports: seq<Port>) {
    match call
    case InSem(_, _, _) => t != INIT && (u.phase != Idle ==> u.phase.sigs == SIGF_SINGLE)
    case InPort(p, _) =>
      p < |ports| && ports[p].owner == t != INIT && (u.phase != Idle ==> u.phase.sigs == ports[p].signal)
    case InTimer(tm, stage, _, delaying, _, _, _, _) =>
      && tm < |timers|
      && timers[tm].task == Some(t)
      && timers[tm].local == delaying
      && (delaying ==> t != INIT)
      && (stage in {Testing, Asking, Blocking, Releasing} ==> delaying)
      && (u.phase != Idle ==> u.phase.sigs == timers[tm].signal)
    case _ => true
  }

  ghost predicate CallsOk(c: Core, calls: seq<Call>, timers: seq<Timer>, ports: seq<Port>) {
    && |calls| == |c.tasks|
    && (forall t :: 0 <= t < |calls| ==>
          && CallOk(calls[t], t, c.tasks[t], t == c.running, c.nest)
          && CallLinked(calls[t], t, c.tasks[t], timers, ports))
  }

  // Where a timer stands at each stage of the timer_add or timer_delay that handles it.
  ghost predicate StageOk(call: Call, u: Task, timers: seq<Timer>, tq: seq<TimerId>) {
    call.InTimer? && call.timer < |timers| ==>
      var tm := timers[call.timer];
      && (call.stage in {Stamping, Checking, Inserting} ==> call.timer !in tq && tm.status != Added)
      && (call.delaying ==>
           && tm.signal != {} && tm.signal * SIGF_SINGLE == {} && tm.signal <= u.sigAlloc
           && (tm.status == Added ==> call.timer in tq)
           && (call.stage in {Stamping, Checking, Inserting} ==> tm.signal * u.sigRecvd == {})
           && (call.stage in {Testing, Asking, Blocking} && tm.status == Added ==> tm.signal * u.sigRecvd == {})
           && (call.stage in {Asking, Blocking} && tm.status != Added ==> tm.status == Done && tm.signal <= u.sigRecvd)
           && (call.stage == Releasing ==> tm.status != Added))
  }

  ghost predicate StagesOk(c: Core, calls: seq<Call>, timers: seq<Timer>, tq: seq<TimerId>)
    requires |calls| == |c.tasks|
  {
    forall t :: 0 <= t < |calls| ==> StageOk(calls[t], c.tasks[t], timers, tq)
  }

  // -- Semaphores --

  function NatOf(n: int): nat { if n > 0 then n else 0 }

  // The exact account of the code as written.
  ghost predicate SemOk(m: Semaphore, tasks: nat) {
    && |m.queue| + NatOf(-m.initial) == NatOf(-m.count) + m.lost
    && m.queued == m.woken + m.queue
    && m.count == m.initial - m.grants - |m.queued| + m.signals
    && (forall i :: 0 <= i < |m.queue| ==> m.queue[i].waiter < tasks)
  }

  ghost predicate SemsOk(tasks: nat, sems: seq<Semaphore>) {
    forall m :: 0 <= m < |sems| ==> SemOk(sems[m], tasks)
  }

  // -- Ports --

  ghost predicate PortOk(p: Port, tasks: nat) {
    && p.sent == p.taken + p.queue
    && p.owner < tasks
    && (p.task.Some? ==> p.task.value < tasks)
  }

  ghost predicate PortsOk(tasks: nat, ports: seq<Port>) {
    forall p :: 0 <= p < |ports| ==> PortOk(ports[p], tasks)
  }

  // A task blocked inside msgport_wait on a port that signals it: the port is empty.
  ghost predicate BlockedOk(t: TaskId, u: Task, call: Call, ports: seq<Port>) {
    call.InPort? && call.port < |ports| && u.state == Waiting ==>
      var p := ports[call.port];
      p.task == Some(t) && p.action == Signal && p.signal != {} ==> p.queue == []
  }

  ghost predicate BlockedsOk(c: Core, calls: seq<Call>, ports: seq<Port>)
    requires |calls| == |c.tasks|
  {
    forall t :: 0 <= t < |calls| ==> BlockedOk(t, c.tasks[t], calls[t], ports)
  }

  ghost predicate KInv(s: State) {
    && Inv(s.core)
    && CallsOk(s.core, s.calls, s.timers, s.ports)
    && TimersOk(|s.core.tasks|, s.timers, s.tq, s.stamps)
    && StagesOk(s.core, s.calls, s.timers, s.tq)
    && SemsOk(|s.core.tasks|, s.sems)
    && PortsOk(|s.core.tasks|, s.ports)
    && BlockedsOk(s.core, s.calls, s.ports)
  }

  // The machine never gets stuck on a dangling reference: what the actions follow
  // is always in range, and PendSV always finds a task.
  lemma KInvLinked(s: State)
    requires KInv(s)
    ensures Linked(s)
  {
    PendSVFindsTask(s.core);
    forall m, i | 0 <= m < |s.sems| && 0 <= i < |s.sems[m].queue|
      ensures s.sems[m].queue[i].waiter < |s.core.tasks|
    {
      assert SemOk(s.sems[m], |s.core.tasks|);
    }
    forall p | 0 <= p < |s.ports| && s.ports[p].task.Some? ensures s.ports[p].task.value < |s.core.tasks| {
      assert PortOk(s.ports[p], |s.core.tasks|);
    }
    forall t | 0 <= t < |s.calls| && (s.calls[t].InPort? || s.calls[t].InTimer?)
      ensures if s.calls[t].InPort? then s.calls[t].port < |s.ports| else s.calls[t].timer < |s.timers|
    {
      assert CallLinked(s.calls[t], t, s.core.tasks[t], s.timers, s.ports);
    }
  }

  lemma BootInv()
    ensures Inv(Boot().core)
  {
    var c := Boot().core;
    assert TaskOk(c.tasks[0]);
  }

  // Before any kernel call and with no timers, semaphores or ports only the core matters.
  lemma FreshKInv(s: State)
    requires Inv(s.core) && |s.calls| == |s.core.tasks|
    requires s.timers == [] && s.tq == [] && s.sems == [] && s.ports == []
    requires forall t :: 0 <= t < |s.calls| ==> s.calls[t].User? && s.core.tasks[t].phase == Idle
    ensures KInv(s)
  {}

  lemma BootKInv()
    ensures KInv(Boot())
  {
    BootInv();
    FreshKInv(Boot());
  }

  // -- Core steps that leave the current calls alone --

  // From c to c' the running task and every wait stay; tasks are at most woken, and
  // the only new pending signals are `sigs` for x.
  ghost predicate Gentle(c: Core, c': Core, x: TaskId, sigs: Signals) {
    && c'.running == c.running < |c.tasks|
    && c'.nest == c.nest
    && |c'.tasks| == |c.tasks|
    && (forall t :: 0 <= t < |c.tasks| ==> GentleTask(c.tasks[t], c'.tasks[t], t == c.running, if t == x then sigs else {}))
  }

  ghost predicate GentleTask(u: Task, u': Task, running: bool, sigs: Signals) {
    && u'.phase == u.phase
    && (u'.state == Waiting ==> u.state == Waiting)
    && u'.sigRecvd <= u.sigRecvd + sigs
    && (running || (u'.sigAlloc == u.sigAlloc && u.sigRecvd <= u'.sigRecvd))
  }

  // Nobody but its timer sends task t the signal of its timer_delay.
  ghost predicate Unmixed(calls: seq<Call>, timers: seq<Timer>, x: TaskId, sigs: Signals) {
    x < |calls| && calls[x].InTimer? && calls[x].delaying && calls[x].timer < |timers| ==>
      sigs * timers[calls[x].timer].signal == {}
  }

  lemma GentleKeepsCalls(c: Core, c': Core, x: TaskId, sigs: Signals,
                         calls: seq<Call>, timers: seq<Timer>, ports: seq<Port>)
    requires CallsOk(c, calls, timers, ports) && Gentle(c, c', x, sigs)
    ensures CallsOk(c', calls, timers, ports)
  {
    forall t | 0 <= t < |calls|
      ensures CallOk(calls[t], t, c'.tasks[t], t == c'.running, c'.nest)
      ensures CallLinked(calls[t], t, c'.tasks[t], timers, ports)
    {
      assert CallOk(calls[t], t, c.tasks[t], t == c.running, c.nest);
      assert CallLinked(calls[t], t, c.tasks[t], timers, ports);
      assert GentleTask(c.tasks[t], c'.tasks[t], t == c.running, if t == x then sigs else {});
    }
  }

  lemma GentleKeepsStages(c: Core, c': Core, x: TaskId, sigs: Signals,
                          calls: seq<Call>, timers: seq<Timer>, tq: seq<TimerId>)
    requires |calls| == |c.tasks| && StagesOk(c, calls, timers, tq) && Gentle(c, c', x, sigs)
    requires Unmixed(calls, timers, x, sigs)
    requires calls[c.running].InTimer? ==>
      c'.tasks[c.running].sigAlloc == c.tasks[c.running].sigAlloc
      && c.tasks[c.running].sigRecvd <= c'.tasks[c.running].sigRecvd
    ensures StagesOk(c', calls, timers, tq)
  {
    forall t | 0 <= t < |calls| ensures StageOk(calls[t], c'.tasks[t], timers, tq) {
      assert StageOk(calls[t], c.tasks[t], timers, tq);
      assert GentleTask(c.tasks[t], c'.tasks[t], t == c.running, if t == x then sigs else {});
    }
  }

  lemma GentleKeepsBlockeds(c: Core, c': Core, x: TaskId, sigs: Signals, calls: seq<Call>, ports: seq<Port>)
    requires |calls| == |c.tasks| && BlockedsOk(c, calls, ports) && Gentle(c, c', x, sigs)
    ensures BlockedsOk(c', calls, ports)
  {
    forall t | 0 <= t < |calls| ensures BlockedOk(t, c'.tasks[t], calls[t], ports) {
      assert BlockedOk(t, c.tasks[t], calls[t], ports);
      assert GentleTask(c.tasks[t], c'.tasks[t], t == c.running, if t == x then sigs else {});
    }
  }

  lemma GentleKeeps(s: State, c': Core, x: TaskId, sigs: Signals)
    requires KInv(s) && Inv(c') && Gentle(s.core, c', x, sigs)
    requires Unmixed(s.calls, s.timers, x, sigs)
    requires s.calls[Me(s)].InTimer? ==>
      Run(c').sigAlloc == Run(s.core).sigAlloc && Run(s.core).sigRecvd <= Run(c').sigRecvd
    ensures KInv(s.(core := c'))
  {
    GentleKeepsCalls(s.core, c', x, sigs, s.calls, s.timers, s.ports);
    GentleKeepsStages(s.core, c', x, sigs, s.calls, s.timers, s.tq);
    GentleKeepsBlockeds(s.core, c', x, sigs, s.calls, s.ports);
  }

  lemma SendGentle(c: Core, t: TaskId, sigs: Signals)
    requires t < |c.tasks| && c.running < |c.tasks| && InRange(c.ready, c.tasks)
    ensures Gentle(c, Send(c, t, sigs), t, sigs)
    ensures forall x :: 0 <= x < |c.tasks| ==>
      && Send(c, t, sigs).tasks[x].sigAlloc == c.tasks[x].sigAlloc
      && Send(c, t, sigs).tasks[x].sigRecvd == c.tasks[x].sigRecvd + if x == t then sigs else {}
  {}
}
