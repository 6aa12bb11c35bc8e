// What the scheduler guarantees in every reachable state.
module Scheduling {
  import opened Queues
  import opened Scheduler
  import opened SchedulerInv
  import opened Machine
  import opened MachineRuns

  ghost predicate NothingMissed(u: Task) {
    && (u.state == Waiting ==> u.phase != Idle && u.sigWait * u.sigRecvd == {})
    && (u.phase != Idle && u.sigWait * u.sigRecvd != {} ==> u.state == Ready || u.state == Running)
  }

  lemma TaskOkMissesNothing(u: Task)
    requires TaskOk(u)
    ensures NothingMissed(u)
  {}

  // No lost wake-up: a waiting task has none of the signals it waits for, and a task
  // inside signal_wait with such a signal pending is not waiting.
  lemma NoLostWakeUp(s: State, t: TaskId)
    requires Reachable(s) && t < |s.core.tasks|
    ensures NothingMissed(s.core.tasks[t])
  {
    ReachableKInv(s);
    TaskOkMissesNothing(s.core.tasks[t]);
  }

  lemma CountOnce(q: seq<TaskId>, t: TaskId)
    requires NoDup(q)
    ensures multiset(q)[t] == if t in q then 1 else 0
  {
    if t in q {
      var i := IndexOf(q, t);
      assert q == q[..i] + [t] + q[i + 1..];
      assert t !in q[..i] && t !in q[i + 1..];
    }
  }

  // The queues partition the tasks by state.
  lemma QueuesPartitionTasks(s: State, t: TaskId)
    requires Reachable(s) && t < |s.core.tasks|
    ensures var u := s.core.tasks[t];
      && multiset(s.core.ready)[t] == (if u.state == Ready then 1 else 0)
      && multiset(s.core.waiting)[t] == (if u.state == Waiting then 1 else 0)
      && (u.state == Running ==> t == Me(s))
  {
    ReachableKInv(s);
    CountOnce(s.core.ready, t);
    CountOnce(s.core.waiting, t);
  }

  // PendSV always finds a task, because the init task never waits.
  lemma SwitchNeverFindsEmptyList(s: State)
    requires Reachable(s)
    ensures CanSwitch(s.core)
    ensures s.core.tasks[INIT].state in {Running, Ready}
  {
    ReachableKInv(s);
    PendSVFindsTask(s.core);
    assert TaskOk(s.core.tasks[INIT]);
  }

  // A task back from its switch inside signal_wait finds a requested signal at the
  // first test, so the blocking loop blocks at most once per call.
  lemma WaitBlocksOnce(s: State)
    requires Reachable(s) && Sane(s) && Turn(s) && Run(s.core).phase.Kicked?
    ensures Run(s.core).phase.sigs * Run(s.core).sigRecvd != {}
    ensures Run(Resume(s.core)).phase == Idle
  {
    ReachableKInv(s);
    ResumeKeeps(s.core);
  }

  // While no switch is pending the running task has 1 to QUANTUM ticks left.
  lemma ElapsedInRange(s: State)
    requires Reachable(s) && !s.core.pendsv
    ensures 1 <= s.core.elapsed <= QUANTUM
  {
    ReachableKInv(s);
  }
}
