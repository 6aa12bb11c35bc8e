// Runs of the kernel that end where the code departs from its documentation.
module Examples {
  import opened Queues
  import opened Scheduler
  import opened SchedulerInv
  import opened SchedulerOrder
  import opened Machine
  import opened MachineInv
  import opened MachineRuns

  // -- Runs, action by action --

  lemma {:induction false} LeadsAppend(s: State, actions: seq<Action>, m: State, a: Action)
    requires Leads(s, actions, m) && Linked(m) && Enabled(m, a) && Private(m, a)
    ensures Leads(s, actions + [a], Apply(m, a))
    decreases |actions|
  {
    if actions == [] {
      assert [a][1..] == [];
    } else {
      assert (actions + [a])[0] == actions[0] && (actions + [a])[1..] == actions[1..] + [a];
      LeadsAppend(Apply(s, actions[0]), actions[1..], m, a);
    }
  }

  ghost predicate NoDelay(s: State) {
    forall t :: 0 <= t < |s.calls| ==> !(s.calls[t].InTimer? && s.calls[t].delaying)
  }

  lemma OneMore(s: State, a: Action)
    requires Reachable(s) && Enabled(s, a) && NoDelay(s)
    ensures Linked(s) && Reachable(Apply(s, a))
  {
    ReachableKInv(s);
    KInvLinked(s);
    var actions :| Leads(Boot(), actions, s);
    LeadsAppend(Boot(), actions, s, a);
  }

  // -- task_set_prio on a READY task --

  // A state with tasks and nothing else, all of them outside kernel calls.
  function Plain(c: Core): State {
    State(c, seq(|c.tasks|, _ => User(NoResult)), 0, [], [], 0, [], [], 0)
  }

  lemma PlainInit(c: Core, prio: Prio)
    requires Reachable(Plain(c)) && InBounds(c) && !c.pendsv
    ensures Reachable(Plain(Create(c, prio)))
  {
    OneMore(Plain(c), TaskInit(prio));
    PlainAfterInit(c, prio);
  }

  lemma PlainAfterInit(c: Core, prio: Prio)
    requires Linked(Plain(c)) && Enabled(Plain(c), TaskInit(prio))
    ensures Apply(Plain(c), TaskInit(prio)) == Plain(Create(c, prio))
  {
    assert Plain(c).calls + [User(NoResult)] == Plain(Create(c, prio)).calls;
  }

  lemma PlainSchedule(c: Core, t: TaskId)
    requires Reachable(Plain(c)) && InBounds(c) && !c.pendsv && t < |c.tasks| && c.tasks[t].state == Initialized
    ensures Reachable(Plain(Schedule(c, t)))
  {
    OneMore(Plain(c), TaskSchedule(t));
    PlainAfterSchedule(c, t);
  }

  lemma PlainAfterSchedule(c: Core, t: TaskId)
    requires Linked(Plain(c)) && Enabled(Plain(c), TaskSchedule(t))
    ensures Apply(Plain(c), TaskSchedule(t)) == Plain(Schedule(c, t))
  {
    assert Plain(c).calls == Plain(Schedule(c, t)).calls;
  }

  lemma PlainSetPrio(c: Core, t: TaskId, prio: Prio)
    requires Reachable(Plain(c)) && InBounds(c) && !c.pendsv && t < |c.tasks|
    ensures Reachable(Plain(SetPrio(c, t, prio)))
  {
    OneMore(Plain(c), TaskSetPrio(t, prio));
    assert Plain(c).calls == Plain(SetPrio(c, t, prio)).calls;
  }

  // The running task is above the head of the ready list: a switch runs it again.
  ghost predicate AboveHead(c: Core) {
    && InBounds(c) && Run(c).state == Running && c.nest == Run(c).nest == -1
    && (c.ready != [] ==> c.tasks[c.ready[0]].prio < Run(c).prio)
  }

  function SwitchedBack(c: Core): Core
    requires c.running < |c.tasks|
  {
    SetTask(c, c.running, Run(c).(arrival := c.arrivals))
      .(arrivals := c.arrivals + 1, elapsed := QUANTUM, pendsv := false)
  }

  lemma SwitchesBack(c: Core)
    requires AboveHead(c)
    ensures CanSwitch(c) && PendSV(c) == SwitchedBack(c)
  {
    var d := Requeue(c);
    assert Slot(Prios(c.ready, c.tasks), Run(c).prio) == 0;
    assert d.ready == [c.running] + c.ready && d.ready[1..] == c.ready;
    assert InRange(d.ready, d.tasks) by {
      assert forall i :: 0 < i < |d.ready| ==> d.ready[i] == c.ready[i - 1];
    }
    assert PendSV(c).tasks == SwitchedBack(c).tasks;
  }

  lemma PlainSwitch(c: Core)
    requires Reachable(Plain(c)) && AboveHead(c) && c.pendsv
    ensures Reachable(Plain(SwitchedBack(c)))
  {
    SwitchesBack(c);
    OneMore(Plain(c), PendSVIrq);
    assert Plain(c).calls == Plain(PendSV(c)).calls;
  }

  // The same as seen from outside: the switch leaves all but arrivals and elapsed time.
  lemma RunsAgain(c: Core) returns (d: Core)
    requires Reachable(Plain(c)) && AboveHead(c) && c.pendsv
    ensures Reachable(Plain(d)) && AboveHead(d) && !d.pendsv
    ensures d.running == c.running && d.ready == c.ready && |d.tasks| == |c.tasks|
    ensures forall i :: 0 <= i < |c.tasks| ==>
      d.tasks[i].prio == c.tasks[i].prio && d.tasks[i].state == c.tasks[i].state
  {
    PlainSwitch(c);
    d := SwitchedBack(c);
  }

  // The init task runs above all; the tasks 1 and 2 are there, at 5 and 3.
  ghost predicate Three(c: Core, state1: RunState, state2: RunState) {
    && AboveHead(c) && |c.tasks| == 3 && c.running == 0
    && c.tasks[1].prio == 5 && c.tasks[2].prio == 3
    && c.tasks[1].state == state1 && c.tasks[2].state == state2
    && c.ready == (if state1 == Ready then [1] else []) + (if state2 == Ready then [2] else [])
  }

  lemma BothAreNew() returns (c: Core)
    ensures Reachable(Plain(c)) && Three(c, Initialized, Initialized)
    ensures !c.pendsv && Run(c).prio == TASK_PRIO_EXCLUSIVE
  {
    assert Leads(Boot(), [], Boot());
    assert Plain(BootCore()) == Boot();
    PlainInit(BootCore(), 5);
    c := Create(BootCore(), 5);
    PlainInit(c, 3);
    c := Create(c, 3);
  }

  lemma FirstScheduled(c: Core)
    requires Three(c, Initialized, Initialized) && Run(c).prio == TASK_PRIO_EXCLUSIVE
    ensures Three(Schedule(c, 1), Ready, Initialized) && Run(Schedule(c, 1)).prio == TASK_PRIO_EXCLUSIVE
    ensures Schedule(c, 1).pendsv
  {
    assert Schedule(c, 1).ready == [1];
  }

  lemma SecondScheduled(c: Core)
    requires Three(c, Ready, Initialized) && Run(c).prio == TASK_PRIO_EXCLUSIVE
    ensures Three(Schedule(c, 2), Ready, Ready) && Run(Schedule(c, 2)).prio == TASK_PRIO_EXCLUSIVE
    ensures Schedule(c, 2).pendsv
  {
    assert Slot(Prios(c.ready, c.tasks), 3) == 1;
    assert Schedule(c, 2).ready == [1, 2];
  }

  lemma BothAreReady() returns (c: Core)
    ensures Reachable(Plain(c)) && Three(c, Ready, Ready) && !c.pendsv
  {
    c := BothAreNew();
    FirstScheduled(c);
    PlainSchedule(c, 1);
    c := RunsAgain(Schedule(c, 1));
    SecondScheduled(c);
    PlainSchedule(c, 2);
    c := RunsAgain(Schedule(c, 2));
  }

  // The init task at 7 runs; the tasks 1 and 2 are ready, at 5 and 3.
  lemma SevenRuns() returns (c: Core)
    ensures Reachable(Plain(c)) && Three(c, Ready, Ready) && !c.pendsv && Run(c).prio == 7
  {
    c := BothAreReady();
    PlainSetPrio(c, 0, 7);
    c := RunsAgain(SetPrio(c, 0, 7));
  }

  // A core in which the task 2 is raised behind the task 1, before and after the switch.
  ghost predicate Raised(c: Core) {
    && AboveHead(c) && |c.tasks| == 3 && c.running == 0 && c.ready == [1, 2]
    && Run(c).prio == 7 && c.tasks[2].state == Ready && c.tasks[2].prio == 10
  }

  lemma RaisingPends(c: Core)
    requires Three(c, Ready, Ready) && Run(c).prio == 7
    ensures Top(c) && Raised(SetPrio(c, 2, 10)) && SetPrio(c, 2, 10).pendsv
  {
    assert c.ready == [1, 2];
  }

  lemma RaisedWaits(c: Core)
    requires Raised(c)
    ensures CanSwitch(c) && Raised(PendSV(c)) && !PendSV(c).pendsv && !RunningIsTop(PendSV(c))
  {
    SwitchesBack(c);
    assert SwitchedBack(c).ready[1] == 2;
  }

  // README's scheduling invariant is not always true. Task 2 is raised to 10 while READY,
  // and the switch that this pends runs the task at 7 again.
  lemma RaisedTaskIsPassedOver() returns (before: State, after: State)
    ensures Reachable(before) && Top(before.core) && 2 < |before.core.tasks| && before.core.tasks[2].state == Ready
    ensures CanSwitch(SetPrio(before.core, 2, 10)) && after.core == PendSV(SetPrio(before.core, 2, 10))
    ensures Reachable(after) && InBounds(after.core) && 2 < |after.core.tasks|
    ensures Run(after.core).state == Running && Run(after.core).prio == 7 && !after.core.pendsv
    ensures after.core.tasks[2].state == Ready && after.core.tasks[2].prio == 10
    ensures !RunningIsTop(after.core)
  {
    var c := SevenRuns();
    RaisingPends(c);
    before := Plain(c);
    PlainSetPrio(c, 2, 10);
    var d := SetPrio(c, 2, 10);
    RaisedWaits(d);
    SwitchesBack(d);
    PlainSwitch(d);
    after := Plain(PendSV(d));
  }

  // -- timer_abort --

  // The init task is at a stage of adding its only timer, and nothing else happened.
  ghost predicate Adding(s: State, stage: Stage) {
    && Sane(s) && NoDelay(s) && |s.calls| == 1 && |s.timers| == 1
    && s.clock == 0 && s.tq == [] && !s.core.pendsv && Run(s.core).phase == Idle
    && s.calls[0].InTimer? && s.calls[0].timer == 0 && s.calls[0].stage == stage && !s.calls[0].delaying
    && !s.timers[0].local && s.timers[0].delay == 5 && (stage != Stamping ==> s.timers[0].tick == 5)
  }

  lemma TimerIsAllocated() returns (s: State)
    ensures Reachable(s) && Sane(s) && NoDelay(s) && AtUser(s) && |s.calls| == 1 && Run(s.core).phase == Idle
    ensures !s.core.pendsv && s.clock == 0 && s.tq == [] && s.timers == [NewTimer(0, {15}, false)] && Me(s) == 0
  {
    assert Leads(Boot(), [], Boot());
    assert FreeBit(SIGF_SINGLE, 15) == 15;
    OneMore(Boot(), TimerAllocate);
    s := Apply(Boot(), TimerAllocate);
  }

  lemma AddingProceeds(s: State, stage: Stage)
    requires Linked(s) && Enabled(s, Proceed) && Adding(s, stage)
    ensures Apply(s, Proceed) == TimerStep(s)
  {
    assert Apply(s, Proceed) == ApplyProceed(s);
  }

  lemma StampStage(s: State)
    requires Adding(s, Stamping)
    ensures Adding(TimerStep(s), Checking)
  {}

  lemma CheckStage(s: State)
    requires Adding(s, Checking)
    ensures Adding(TimerStep(s), Inserting)
  {}

  ghost predicate AddedOnce(s: State) {
    && Sane(s) && NoDelay(s) && AtUser(s) && |s.timers| == 1 && s.tq == [0]
    && s.timers[0].status == Added && !s.timers[0].local && !s.timers[0].aborted
  }

  lemma InsertStage(s: State)
    requires Adding(s, Inserting)
    ensures AddedOnce(TimerStep(s))
  {}

  lemma TimerIsStarted() returns (s: State)
    ensures Reachable(s) && Adding(s, Stamping)
  {
    var s0 := TimerIsAllocated();
    OneMore(s0, TimerAdd(0, Delay, 5));
    s := Apply(s0, TimerAdd(0, Delay, 5));
  }

  lemma TimerIsAdded() returns (s: State)
    ensures Reachable(s) && AddedOnce(s)
  {
    var s0 := TimerIsStarted();
    OneMore(s0, Proceed);
    AddingProceeds(s0, Stamping);
    StampStage(s0);
    var s1 := Apply(s0, Proceed);
    OneMore(s1, Proceed);
    AddingProceeds(s1, Checking);
    CheckStage(s1);
    var s2 := Apply(s1, Proceed);
    OneMore(s2, Proceed);
    AddingProceeds(s2, Inserting);
    InsertStage(s2);
    s := Apply(s2, Proceed);
  }

  // A timer can be ADDED and in no list: a second timer_abort would pass its test and
  // unlink it again.
  lemma AbortedTimerStaysAdded() returns (s: State)
    ensures Reachable(s) && |s.timers| == 1 && s.timers[0].status == Added && 0 !in s.tq
  {
    var s0 := TimerIsAdded();
    OneMore(s0, TimerAbort(0));
    s := Apply(s0, TimerAbort(0));
    assert Without([0], 0) == [];
  }
}
