// Message ports and semaphores: what holds over every run.
module Messaging {
  import opened Scheduler
  import opened SchedulerInv
  import opened Machine
  import opened MachineInv
  import opened MachineRuns

  // -- Message ports --

  // All messages ever sent to a port are those taken from it, followed by its queue.
  lemma MessagesAreConserved(s: State, p: PortId)
    requires Reachable(s) && p < |s.ports|
    ensures s.ports[p].sent == s.ports[p].taken + s.ports[p].queue
  {
    ReachableKInv(s);
    assert PortOk(s.ports[p], |s.core.tasks|);
  }

  // The port signals the task, and so msgport_wait on it is woken by each message.
  ghost predicate Armed(p: Port, t: TaskId) {
    p.task == Some(t) && p.action == Signal && p.signal != {}
  }

  // A task blocked inside msgport_wait on its armed port: no message is queued there.
  lemma BlockedOwnerHasNoMessage(s: State, t: TaskId)
    requires Reachable(s) && t < |s.calls| && t < |s.core.tasks|
    requires s.calls[t].InPort? && s.core.tasks[t].state == Waiting
    ensures s.calls[t].port < |s.ports|
    ensures Armed(s.ports[s.calls[t].port], t) ==> s.ports[s.calls[t].port].queue == []
  {
    ReachableKInv(s);
    assert CallLinked(s.calls[t], t, s.core.tasks[t], s.timers, s.ports);
    assert BlockedOk(t, s.core.tasks[t], s.calls[t], s.ports);
  }

  // The port waited on by an msgport_wait that this action starts or goes on with.
  ghost predicate WaitsOn(s: State, a: Action, p: PortId) {
    || a == PortWait(p)
    || (a.Proceed? && Me(s) < |s.calls| && s.calls[Me(s)].InPort? && s.calls[Me(s)].port == p)
  }

  // The port's oldest message: peeked, not removed.
  ghost predicate PeeksOldest(s: State, s': State, p: PortId)
    requires p < |s.ports|
  {
    && Me(s) < |s'.calls| && s'.ports == s.ports
    && (s'.calls[Me(s)].User? ==>
          s.ports[p].queue != [] && s'.calls[Me(s)] == User(Peeked(s.ports[p].queue[0])))
    && (s'.calls[Me(s)].User? || s'.calls[Me(s)].InPort?)
  }

  lemma PortLoopPeeks(s: State, p: PortId)
    requires Sane(s) && p < |s.ports| && s.calls[Me(s)].InPort?
    ensures PeeksOldest(s, PortLoop(s, p), p)
    decreases s.ports[p].signal * Run(s.core).sigRecvd != {}
  {
    if s.ports[p].queue == [] && s.ports[p].signal * Run(s.core).sigRecvd != {} {
      PortLoopPeeks(s.(core := WaitEnter(s.core, s.ports[p].signal)), p);
    }
  }

  lemma ResumePeeks(s: State, p: PortId)
    requires KInv(s) && Linked(s) && Enabled(s, Proceed) && WaitsOn(s, Proceed, p)
    ensures p < |s.ports| && PeeksOldest(s, ApplyProceed(s), p)
  {
    assert CallOk(s.calls[Me(s)], Me(s), Run(s.core), true, s.core.nest);
    if Run(s.core).phase.Kicked? {
      ResumeKeeps(s.core);
      PortLoopPeeks(s.(core := Resume(s.core)), p);
    }
  }

  lemma CallPeeks(s: State, p: PortId)
    requires Linked(s) && Enabled(s, PortWait(p))
    ensures PeeksOldest(s, ApplyPort(s, PortWait(p)), p)
  {
    PortLoopPeeks(SetCall(s.(core := s.core.(nest := s.core.nest + 1)), InPort(p, s.core.nest)), p);
  }

  lemma WaitPeeks(s: State, a: Action, p: PortId)
    requires KInv(s) && Linked(s) && Enabled(s, a) && WaitsOn(s, a, p)
    ensures p < |s.ports| && PeeksOldest(s, Apply(s, a), p)
  {
    if a.PortWait? {
      assert Apply(s, a) == ApplyPort(s, a);
      CallPeeks(s, p);
    } else {
      assert Apply(s, a) == ApplyProceed(s);
      ResumePeeks(s, p);
    }
  }

  // msgport_wait returns the oldest message sent and not yet taken, and leaves it there.
  lemma WaitReturnsOldestUntaken(s: State, a: Action, p: PortId)
    requires Reachable(s) && Linked(s) && Enabled(s, a) && WaitsOn(s, a, p)
    ensures p < |s.ports| && Me(s) < |Apply(s, a).calls|
    ensures Apply(s, a).calls[Me(s)].User? ==>
      && |s.ports[p].taken| < |s.ports[p].sent|
      && Apply(s, a).calls[Me(s)] == User(Peeked(s.ports[p].sent[|s.ports[p].taken|]))
      && Apply(s, a).ports == s.ports
  {
    ReachableKInv(s);
    WaitPeeks(s, a, p);
    assert PortOk(s.ports[p], |s.core.tasks|);
  }

  // -- Semaphores --

  // The exact account of a semaphore in every reachable state: what the count does not
  // show of the queue are the wake-ups lost at a count of -1; every unit of the initial
  // count and of the signals was granted, woke a request, was lost, or is still there;
  // and requests are woken in the order in which they were queued.
  lemma SemaphoreAccount(s: State, m: SemId)
    requires Reachable(s) && m < |s.sems|
    ensures var sem := s.sems[m];
      && |sem.queue| + NatOf(-sem.initial) == NatOf(-sem.count) + sem.lost
      && sem.grants + |sem.woken| + sem.lost + NatOf(sem.count) == NatOf(sem.initial) + sem.signals
      && sem.queued == sem.woken + sem.queue
  {
    ReachableKInv(s);
    assert SemOk(s.sems[m], |s.core.tasks|);
  }

  // Safety and fairness: never more grants and wake-ups than units.
  lemma SemaphoreIsSafe(s: State, m: SemId)
    requires Reachable(s) && m < |s.sems| && s.sems[m].initial >= 0
    ensures s.sems[m].grants + |s.sems[m].woken| <= s.sems[m].initial + s.sems[m].signals
    ensures s.sems[m].woken <= s.sems[m].queued
  {
    SemaphoreAccount(s, m);
  }

  // The invariant sketched in sem_verify holds exactly while no wake-up has been lost.
  lemma SketchedInvariantExact(s: State, m: SemId)
    requires Reachable(s) && m < |s.sems| && s.sems[m].initial >= 0
    ensures |s.sems[m].queue| == NatOf(-s.sems[m].count) <==> s.sems[m].lost == 0
  {
    SemaphoreAccount(s, m);
  }

  // A signal at a count of -1, and no other, leaves a waiter queued that the count does
  // not show.
  lemma SignalLosesExactly(m: Semaphore)
    requires m.count + 1 < 0 ==> m.queue != []
    ensures SignalSem(m).lost == m.lost + (if m.count == -1 then 1 else 0)
    ensures |SignalSem(m).woken| == |m.woken| + (if m.count < -1 then 1 else 0)
    ensures |m.queue| == NatOf(-m.count) ==>
      (|SignalSem(m).queue| == NatOf(-SignalSem(m).count) <==> m.count != -1)
  {}

  // For instance: a holds a semaphore of count 1 and b is queued; a's signal brings the
  // count from -1 to 0 and leaves b in the queue.
  lemma ReleaseLeavesWaiter(a: Request, b: Request)
    ensures var m := SignalSem(AddRequest(AddRequest(NewSem(1), a), b));
      m.count == 0 && m.queue == [b] && m.woken == [] && m.lost == 1
  {}

  // -- sem_signal's assertion that it finds a request --

  datatype SemOp = Request_(req: Request) | Signal_

  function SemRun(m: Semaphore, ops: seq<SemOp>): Semaphore
    decreases |ops|
  {
    if ops == [] then m
    else SemRun(if ops[0].Request_? then AddRequest(m, ops[0].req) else SignalSem(m), ops[1..])
  }

  // The assertion NULL != req of a sem_signal at this point.
  predicate AssertionHolds(m: Semaphore) {
    m.count + 1 < 0 ==> m.queue != []
  }

  lemma {:induction false} RunMeetsAssertion(m: Semaphore, ops: seq<SemOp>)
    requires |m.queue| >= -m.count - 1
    ensures AssertionHolds(SemRun(m, ops))
    decreases |ops|
  {
    if ops != [] {
      RunMeetsAssertion(if ops[0].Request_? then AddRequest(m, ops[0].req) else SignalSem(m), ops[1..]);
    }
  }

  // ... so it cannot fail in any reachable state of a semaphore that starts at -1 or more.
  lemma AssertionCannotFail(s: State, m: SemId)
    requires Reachable(s) && m < |s.sems| && s.sems[m].initial >= -1
    ensures AssertionHolds(s.sems[m])
  {
    SemaphoreAccount(s, m);
  }

  // Over all sequences of requests and signals the assertion holds exactly when the
  // initial count is at least -1.
  lemma AssertionHoldsExactly(initial: int)
    ensures initial >= -1 <==> forall ops :: AssertionHolds(SemRun(NewSem(initial), ops))
  {
    if initial >= -1 {
      forall ops ensures AssertionHolds(SemRun(NewSem(initial), ops)) {
        RunMeetsAssertion(NewSem(initial), ops);
      }
    } else {
      assert !AssertionHolds(SemRun(NewSem(initial), []));
    }
  }

  // -- A variant, not the code: sem_signal testing count <= 0 --

  function SignalSemVariant(m: Semaphore): Semaphore {
    var m1 := m.(count := m.count + 1, signals := m.signals + 1);
    if m1.count <= 0 && m.queue != [] then m1.(queue := m.queue[1..], woken := m.woken + [m.queue[0]]) else m1
  }

  function VariantRun(m: Semaphore, ops: seq<SemOp>): Semaphore
    decreases |ops|
  {
    if ops == [] then m
    else VariantRun(if ops[0].Request_? then AddRequest(m, ops[0].req) else SignalSemVariant(m), ops[1..])
  }

  lemma {:induction false} VariantKeepsSketch(m: Semaphore, ops: seq<SemOp>)
    requires |m.queue| == NatOf(-m.count)
    ensures |VariantRun(m, ops).queue| == NatOf(-VariantRun(m, ops).count)
    decreases |ops|
  {
    if ops != [] {
      VariantKeepsSketch(if ops[0].Request_? then AddRequest(m, ops[0].req) else SignalSemVariant(m), ops[1..]);
    }
  }

  // With that test the sketched invariant would hold over every run.
  lemma VariantMeetsSketch(initial: nat, ops: seq<SemOp>)
    ensures var m := VariantRun(NewSem(initial), ops); |m.queue| == NatOf(-m.count)
  {
    VariantKeepsSketch(NewSem(initial), ops);
  }
}
