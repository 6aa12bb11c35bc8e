// The timer actions and timer_poll keep the kernel invariant.
module MachineTimers {
  import opened Queues
  import opened Scheduler
  import opened SchedulerInv
  import opened Machine
  import opened MachineInv
  import opened MachineSteps

  // -- The timer queue --

  lemma InsertTimerRanks(tq: seq<TimerId>, timers: seq<Timer>, tm: TimerId, t: Timer, k: nat)
    requires TimersInRange(tq, timers) && tm < |timers| && tm !in tq && k <= |tq|
    ensures TimersInRange(InsertAt(tq, k, tm), timers[tm := t])
    ensures TimerRanks(InsertAt(tq, k, tm), timers[tm := t]) == InsertAt(TimerRanks(tq, timers), k, TimerRank(t))
  {
    var r := InsertAt(tq, k, tm);
    assert forall j :: 0 <= j < |tq| ==> tq[j] in tq;
    assert forall j :: 0 <= j < |r| ==> r[j] == (if j < k then tq[j] else if j == k then tm else tq[j - 1]);
  }

  // timer_add keeps the queue sorted, equal ticks in order of insertion.
  lemma InsertTimerSorted(tq: seq<TimerId>, timers: seq<Timer>, tm: TimerId, t: Timer)
    requires TimersInRange(tq, timers) && Sorted(TimerRanks(tq, timers)) && tm < |timers| && tm !in tq
    requires forall i :: 0 <= i < |tq| ==> timers[tq[i]].stamp < t.stamp
    ensures var r := InsertAt(tq, Slot(Keys(tq, timers), Key(t)), tm);
      TimersInRange(r, timers[tm := t]) && Sorted(TimerRanks(r, timers[tm := t]))
  {
    var rs := TimerRanks(tq, timers);
    assert KeysOf(rs) == Keys(tq, timers);
    SortedInsert(rs, TimerRank(t));
    InsertTimerRanks(tq, timers, tm, t, Slot(Keys(tq, timers), Key(t)));
  }

  lemma InsertTimerQueue(s: State, tm: TimerId)
    requires TimerQueue(s.tq, s.timers, s.stamps) && tm < |s.timers| && tm !in s.tq
    ensures var s' := InsertTimer(s, tm); TimerQueue(s'.tq, s'.timers, s'.stamps)
    ensures forall x :: x in InsertTimer(s, tm).tq <==> x == tm || x in s.tq
  {
    var s' := InsertTimer(s, tm);
    InsertAtIsExact(s.tq, Slot(Keys(s.tq, s.timers), Key(s.timers[tm])), tm);
    InsertTimerSorted(s.tq, s.timers, tm, s'.timers[tm]);
    assert forall i :: 0 <= i < |s'.tq| ==> s'.tq[i] in s'.tq;
  }

  lemma InsertTimerKeeps(tasks: nat, s: State, tm: TimerId)
    requires TimersOk(tasks, s.timers, s.tq, s.stamps) && tm < |s.timers|
    requires tm !in s.tq && s.timers[tm].task.Some?
    ensures var s' := InsertTimer(s, tm);
      TimersOk(tasks, s'.timers, s'.tq, s'.stamps) && (forall x :: x in s'.tq <==> x == tm || x in s.tq)
  {
    InsertTimerQueue(s, tm);
    var s' := InsertTimer(s, tm);
    forall x | 0 <= x < |s'.timers| ensures TimerOk(s'.timers[x], x in s'.tq, tasks) {
      assert TimerOk(s.timers[x], x in s.tq, tasks);
    }
  }

  lemma RemoveTimerRanks(tq: seq<TimerId>, timers: seq<Timer>, i: nat, t: Timer)
    requires NoDup(tq) && TimersInRange(tq, timers) && i < |tq|
    ensures TimersInRange(RemoveAt(tq, i), timers[tq[i] := t])
    ensures TimerRanks(RemoveAt(tq, i), timers[tq[i] := t]) == RemoveAt(TimerRanks(tq, timers), i)
  {
    var r := RemoveAt(tq, i);
    assert forall j :: 0 <= j < |r| ==> r[j] == tq[if j < i then j else j + 1];
  }

  lemma RemoveTimerSorted(tq: seq<TimerId>, timers: seq<Timer>, i: nat, t: Timer)
    requires NoDup(tq) && TimersInRange(tq, timers) && Sorted(TimerRanks(tq, timers)) && i < |tq|
    ensures TimersInRange(RemoveAt(tq, i), timers[tq[i] := t])
    ensures Sorted(TimerRanks(RemoveAt(tq, i), timers[tq[i] := t]))
  {
    SortedRemove(TimerRanks(tq, timers), i);
    RemoveTimerRanks(tq, timers, i, t);
  }

  lemma RemoveTimerQueue(tq: seq<TimerId>, timers: seq<Timer>, stamps: nat, tm: TimerId, t: Timer)
    requires TimerQueue(tq, timers, stamps) && tm in tq
    ensures TimerQueue(Without(tq, tm), timers[tm := t], stamps)
    ensures forall x :: x in Without(tq, tm) <==> x != tm && x in tq
  {
    var i := IndexOf(tq, tm);
    WithoutIsExact(tq, tm);
    RemoveTimerSorted(tq, timers, i, t);
    forall j | 0 <= j < |tq| - 1 ensures timers[tm := t][Without(tq, tm)[j]].stamp < stamps {
      RemoveAtIndex(tq, i, j);
    }
  }

  lemma RemoveTimerKeeps(tasks: nat, timers: seq<Timer>, tq: seq<TimerId>, stamps: nat, tm: TimerId, t: Timer)
    requires TimersOk(tasks, timers, tq, stamps) && tm in tq
    requires t == Expired(timers[tm]) || t == Removed(timers[tm])
    ensures TimersOk(tasks, timers[tm := t], Without(tq, tm), stamps)
    ensures forall x :: x in Without(tq, tm) <==> x != tm && x in tq
  {
    RemoveTimerQueue(tq, timers, stamps, tm, t);
    forall x | 0 <= x < |timers| ensures TimerOk(timers[tm := t][x], x in Without(tq, tm), tasks) {
      assert TimerOk(timers[x], x in tq, tasks);
    }
  }

  lemma ChangeTimerKeeps(tasks: nat, timers: seq<Timer>, tq: seq<TimerId>, stamps: nat, tm: TimerId, t: Timer)
    requires TimersOk(tasks, timers, tq, stamps) && tm < |timers| && tm !in tq
    requires t.added == timers[tm].added && t.left == timers[tm].left && Owner(t) < tasks
    requires t.status == Added <==> t.aborted
    ensures TimersOk(tasks, timers[tm := t], tq, stamps)
  {
    assert forall i :: 0 <= i < |tq| ==> tq[i] in tq;
    assert TimerRanks(tq, timers[tm := t]) == TimerRanks(tq, timers);
    forall x | 0 <= x < |timers| ensures TimerOk(timers[tm := t][x], x in tq, tasks) {
      assert TimerOk(timers[x], x in tq, tasks);
    }
  }

  lemma AppendTimerKeeps(tasks: nat, timers: seq<Timer>, tq: seq<TimerId>, stamps: nat, t: Timer)
    requires TimersOk(tasks, timers, tq, stamps) && t.added == t.left && Owner(t) < tasks
    requires t.status == Added <==> t.aborted
    ensures TimersOk(tasks, timers + [t], tq, stamps) && |timers| !in tq
  {
    assert forall i :: 0 <= i < |tq| ==> tq[i] != |timers|;
    assert TimerRanks(tq, timers + [t]) == TimerRanks(tq, timers);
    forall x | 0 <= x < |timers| + 1 ensures TimerOk((timers + [t])[x], x in tq, tasks) {
      if x < |timers| { assert TimerOk(timers[x], x in tq, tasks); }
    }
  }

  // -- Timer actions of the running task --

  // The other tasks' calls only depend on their own timers.
  lemma TimersFrame(s: State, s': State)
    requires Others(s) && Inv(s'.core)
    requires s' == s.(core := s'.core, calls := s'.calls, timers := s'.timers, tq := s'.tq, stamps := s'.stamps)
    requires Me(s') == Me(s) && |s'.calls| == |s.calls| && |s'.core.tasks| == |s.core.tasks|
    requires |s'.timers| >= |s.timers| && TimersOk(|s.core.tasks|, s'.timers, s'.tq, s'.stamps)
    requires forall t :: 0 <= t < |s.calls| && t != Me(s) ==>
      s'.calls[t] == s.calls[t] && s'.core.tasks[t] == s.core.tasks[t]
    requires forall t :: 0 <= t < |s.calls| && t != Me(s) && s.calls[t].InTimer? && s.calls[t].timer < |s.timers| ==>
      var tm := s.calls[t].timer; s'.timers[tm] == s.timers[tm] && (tm in s'.tq <==> tm in s.tq)
    ensures Others(s')
  {
    forall t | 0 <= t < |s'.calls| && t != Me(s') ensures TaskLinked(s', t) {
      assert TaskLinked(s, t);
    }
  }

  // A timer in another task's call is that task's timer.
  lemma OthersTimer(s: State, t: TaskId)
    requires Others(s) && t < |s.calls| && t != Me(s) && s.calls[t].InTimer?
    ensures s.calls[t].timer < |s.timers| && s.timers[s.calls[t].timer].task == Some(t)
    ensures s.calls[t].stage in {Stamping, Checking, Inserting} ==> s.timers[s.calls[t].timer].status != Added
    ensures s.timers[s.calls[t].timer].local == s.calls[t].delaying
    ensures !s.calls[t].delaying ==> s.calls[t].stage in {Stamping, Checking, Inserting}
  {
    assert TaskLinked(s, t);
  }

  // Changing a timer of the running task that is not queued, and the call.
  lemma OwnTimerStep(s: State, c: Core, tm: TimerId, t: Timer, call: Call)
    requires Others(s) && Inv(c) && tm < |s.timers| && tm !in s.tq && s.timers[tm].task == Some(Me(s))
    requires c.running == Me(s) && |c.tasks| == |s.core.tasks|
    requires forall x :: 0 <= x < |c.tasks| && x != Me(s) ==> c.tasks[x] == s.core.tasks[x]
    requires t.added == s.timers[tm].added && t.left == s.timers[tm].left && Owner(t) < |c.tasks|
    requires t.status == Added <==> t.aborted
    ensures Others(s.(core := c, timers := s.timers[tm := t], calls := s.calls[Me(s) := call]))
  {
    ChangeTimerKeeps(|s.core.tasks|, s.timers, s.tq, s.stamps, tm, t);
    forall x | 0 <= x < |s.calls| && x != Me(s) && s.calls[x].InTimer? ensures s.calls[x].timer != tm {
      OthersTimer(s, x);
    }
    TimersFrame(s, s.(core := c, timers := s.timers[tm := t], calls := s.calls[Me(s) := call]));
  }

  lemma NewTimerStep(s: State, t: Timer, call: Call)
    requires KInv(s) && AtUser(s) && HasFreeSignal(s)
    requires t.added == t.left && t.task == Some(Me(s)) && (t.status == Added <==> t.aborted)
    ensures Others(s.(core := Allocate(s.core, -1), timers := s.timers + [t], calls := s.calls[Me(s) := call]))
    ensures |s.timers| !in s.tq
  {
    KInvIsOthers(s);
    AtUserIdle(s);
    AllocateKeeps(s.core, -1);
    AppendTimerKeeps(|s.core.tasks|, s.timers, s.tq, s.stamps, t);
    forall x | 0 <= x < |s.calls| && x != Me(s) && s.calls[x].InTimer? ensures s.calls[x].timer < |s.timers| {
      OthersTimer(s, x);
    }
    TimersFrame(s, s.(core := Allocate(s.core, -1), timers := s.timers + [t], calls := s.calls[Me(s) := call]));
  }

  lemma TimerAllocateStep(s: State)
    requires KInv(s) && Enabled(s, TimerAllocate) && Linked(s)
    ensures KInv(ApplyTimer(s, TimerAllocate))
  {
    AtUserIdle(s);
    var t := NewTimer(Me(s), AllocateAny(s.core).1, false);
    NewTimerStep(s, t, s.calls[Me(s)]);
    var s' := ApplyTimer(s, TimerAllocate);
    assert s'.calls == s.calls[Me(s) := s.calls[Me(s)]];
    assert s' == s.(core := Allocate(s.core, -1), timers := s.timers + [t], calls := s.calls[Me(s) := s.calls[Me(s)]]);
    assert TaskLinked(s', Me(s')) by { assert CallOk(s.calls[Me(s)], Me(s), Run(s.core), true, s.core.nest); }
    KInvIsOthers(s');
  }

  // A signal that signal_allocate(-1) hands out is new, is not SIGF_SINGLE, and is not pending.
  lemma FreshSignal(c: Core)
    requires c.running < |c.tasks| && SIGF_SINGLE <= Run(c).sigAlloc && Choose(Run(c).sigAlloc, -1).0 != -1
    ensures var sig, u := AllocateAny(c).1, Run(Allocate(c, -1));
      sig * Run(c).sigAlloc == {} && sig * SIGF_SINGLE == {} && sig <= u.sigAlloc && sig * u.sigRecvd == {}
  {}

  lemma TimerDelayStep(s: State, ticks: Ticks)
    requires KInv(s) && AtUser(s) && HasFreeSignal(s) && Me(s) != INIT
    ensures KInv(StartDelay(s, ticks))
  {
    AtUserIdle(s);
    var s' := StartDelay(s, ticks);
    var call := InTimer(|s.timers|, Stamping, s.core.nest, true, Now(s), ticks, Now(s), Now(s));
    NewTimerStep(s, s'.timers[|s.timers|], call);
    assert StageOk(call, Run(s'.core), s'.timers, s'.tq) by {
      assert TaskOk(Run(s.core));
      FreshSignal(s.core);
    }
    KInvIsOthers(s');
  }

  lemma TimerAddStep(s: State, tm: TimerId, op: TimerOp, value: Ticks)
    requires KInv(s) && AtUser(s) && tm < |s.timers| && s.timers[tm].task == Some(Me(s))
    requires !s.timers[tm].local && s.timers[tm].status != Added
    ensures KInv(StartAdd(s, tm, op, value))
  {
    AtUserIdle(s);
    KInvIsOthers(s);
    assert TimerOk(s.timers[tm], tm in s.tq, |s.core.tasks|);
    var s' := StartAdd(s, tm, op, value);
    OwnTimerStep(s, s.core, tm, s'.timers[tm], s'.calls[Me(s)]);
    assert s' == s.(core := s.core, timers := s.timers[tm := s'.timers[tm]], calls := s.calls[Me(s) := s'.calls[Me(s)]]);
    KInvIsOthers(s');
  }

  lemma TimerFreeStep(s: State, tm: TimerId)
    requires KInv(s) && Enabled(s, TimerFree(tm)) && Linked(s)
    ensures KInv(ApplyTimer(s, TimerFree(tm)))
  {
    AtUserIdle(s);
    KInvIsOthers(s);
    var s' := ApplyTimer(s, TimerFree(tm));
    FreeKeeps(s.core, s.timers[tm].signal);
    OwnTimerStep(s, s'.core, tm, s'.timers[tm], s.calls[Me(s)]);
    assert s'.calls == s.calls[Me(s) := s.calls[Me(s)]];
    assert TaskLinked(s', Me(s')) by { assert CallOk(s.calls[Me(s)], Me(s), Run(s.core), true, s.core.nest); }
    KInvIsOthers(s');
  }

  lemma TimerAbortStep(s: State, tm: TimerId)
    requires KInv(s) && Enabled(s, TimerAbort(tm)) && Linked(s)
    ensures KInv(ApplyTimer(s, TimerAbort(tm)))
  {
    if s.timers[tm].status == Added {
      KInvIsOthers(s);
      var s' := ApplyTimer(s, TimerAbort(tm));
      RemoveTimerKeeps(|s.core.tasks|, s.timers, s.tq, s.stamps, tm, s'.timers[tm]);
      forall x | 0 <= x < |s.calls| && x != Me(s) && s.calls[x].InTimer? ensures s.calls[x].timer != tm {
        OthersTimer(s, x);
      }
      TimersFrame(s, s');
      assert TaskLinked(s', Me(s')) by { assert CallOk(s.calls[Me(s)], Me(s), Run(s.core), true, s.core.nest); }
      KInvIsOthers(s');
    }
  }

  // -- The regions of timer_add and timer_delay --

  ghost predicate InStage(s: State, stage: Stage) {
    KInv(s) && s.calls[Me(s)].InTimer? && s.calls[Me(s)].stage == stage && Run(s.core).phase == Idle
  }

  lemma MyTimer(s: State)
    requires KInv(s) && s.calls[Me(s)].InTimer?
    ensures Others(s) && TaskLinked(s, Me(s))
    ensures var tm := s.calls[Me(s)].timer; tm < |s.timers| && TimerOk(s.timers[tm], tm in s.tq, |s.core.tasks|)
  {
    KInvIsOthers(s);
    assert CallLinked(s.calls[Me(s)], Me(s), Run(s.core), s.timers, s.ports);
  }

  lemma StampStep(s: State)
    requires InStage(s, Stamping)
    ensures s.calls[Me(s)].timer < |s.timers| && KInv(TimerStep(s))
  {
    MyTimer(s);
    var tm := s.calls[Me(s)].timer;
    var s' := TimerStep(s);
    OwnTimerStep(s, s.core, tm, s'.timers[tm], s'.calls[Me(s)]);
    assert s' == s.(core := s.core, timers := s.timers[tm := s'.timers[tm]], calls := s.calls[Me(s) := s'.calls[Me(s)]]);
    KInvIsOthers(s');
  }

  lemma CheckStep(s: State)
    requires InStage(s, Checking)
    ensures s.calls[Me(s)].timer < |s.timers| && KInv(TimerStep(s))
  {
    MyTimer(s);
    var tm := s.calls[Me(s)].timer;
    var s' := TimerStep(s);
    OwnTimerStep(s, s.core, tm, s'.timers[tm], s'.calls[Me(s)]);
    assert s'.timers == s.timers[tm := s'.timers[tm]];
    assert s' == s.(core := s.core, timers := s.timers[tm := s'.timers[tm]], calls := s.calls[Me(s) := s'.calls[Me(s)]]);
    KInvIsOthers(s');
  }

  lemma InsertOthers(s: State, call: Call)
    requires InStage(s, Inserting)
    ensures var tm := s.calls[Me(s)].timer;
      tm < |s.timers| && Others(SetCall(InsertTimer(s, tm), call)) && tm in InsertTimer(s, tm).tq
  {
    MyTimer(s);
    var tm := s.calls[Me(s)].timer;
    InsertTimerKeeps(|s.core.tasks|, s, tm);
    forall x | 0 <= x < |s.calls| && x != Me(s) && s.calls[x].InTimer? ensures s.calls[x].timer != tm {
      OthersTimer(s, x);
    }
    TimersFrame(s, SetCall(InsertTimer(s, tm), call));
  }

  lemma InsertStep(s: State)
    requires InStage(s, Inserting)
    ensures s.calls[Me(s)].timer < |s.timers| && KInv(TimerStep(s))
  {
    MyTimer(s);
    var s' := TimerStep(s);
    InsertOthers(s, s'.calls[Me(s)]);
    assert TaskLinked(s', Me(s'));
    KInvIsOthers(s');
  }

  lemma TestStep(s: State)
    requires InStage(s, Testing)
    ensures s.calls[Me(s)].timer < |s.timers| && KInv(TimerStep(s))
  {
    MyTimer(s);
    OthersFrame(s, TimerStep(s));
    KInvIsOthers(TimerStep(s));
  }

  lemma AskStep(s: State)
    requires InStage(s, Asking)
    ensures s.calls[Me(s)].timer < |s.timers| && KInv(TimerStep(s))
  {
    MyTimer(s);
    var call := s.calls[Me(s)];
    var t := s.timers[call.timer];
    if t.signal * Run(s.core).sigRecvd == {} {
      BlockStep(s, t.signal, call.(stage := Blocking));
    } else {
      WaitEnterKeeps(s.core, t.signal);
      var s1 := SetCall(s.(core := WaitEnter(s.core, t.signal)), call.(stage := Blocking));
      OthersFrame(s, s1);
      AfterWaitStep(s1, t.signal * Run(s.core).sigRecvd);
    }
  }

  // timer_free inside timer_delay meets signal_free's assertions.
  lemma ReleaseStep(s: State)
    requires InStage(s, Releasing)
    ensures s.calls[Me(s)].timer < |s.timers| && KInv(TimerStep(s))
    ensures var sig := s.timers[s.calls[Me(s)].timer].signal;
      sig * SIGF_SINGLE == {} && sig <= Run(s.core).sigAlloc
  {
    MyTimer(s);
    var call := s.calls[Me(s)];
    FreeKeeps(s.core, s.timers[call.timer].signal);
    var s' := TimerStep(s);
    var result := Delayed(call.start, call.ticks, call.stamped, call.checked);
    OwnTimerStep(s, s'.core, call.timer, s'.timers[call.timer], User(result));
    KInvIsOthers(s');
  }

  // -- timer_poll --

  // The head of the queue removed, DONE and signalled.
  function PollOnce(s: State): State
    requires Sane(s) && s.tq != [] && Owner(s.timers[s.tq[0]]) < |s.core.tasks|
  {
    var h := s.tq[0];
    var t := s.timers[h];
    s.(core := Send(s.core, Owner(t), t.signal), timers := s.timers[h := Expired(t)],
       tq := s.tq[1..])
  }

  // The signal of the queue's head is no other timer_delay's signal.
  ghost predicate HeadPrivate(s: State)
    requires Sane(s) && s.tq != []
  {
    var h, x := s.tq[0], Owner(s.timers[s.tq[0]]);
    x < |s.calls| && s.calls[x].InTimer? && s.calls[x].timer != h ==>
      Unmixed(s.calls, s.timers, x, s.timers[h].signal)
  }

  lemma PollOnceTask(s: State, x: TaskId)
    requires Sane(s) && s.tq != [] && NoDup(s.tq) && HeadPrivate(s)
    requires Owner(s.timers[s.tq[0]]) < |s.core.tasks| && s.timers[s.tq[0]].status == Added
    requires x < |s.calls| && TaskLinked(s, x)
    ensures |PollOnce(s).core.tasks| == |s.core.tasks| && TaskLinked(PollOnce(s), x)
  {
    var h := s.tq[0];
    var t := s.timers[h];
    var s' := PollOnce(s);
    SendGentle(s.core, Owner(t), t.signal);
    assert GentleTask(s.core.tasks[x], s'.core.tasks[x], x == Me(s), if x == Owner(t) then t.signal else {});
    HeadLeaves(s.tq);
    PollOnceStage(s, x);
  }

  lemma HeadLeaves(q: seq<TimerId>)
    requires NoDup(q) && q != []
    ensures q[0] !in q[1..] && forall y :: y != q[0] ==> (y in q[1..] <==> y in q)
  {
    WithoutIsExact(q, q[0]);
    assert IndexOf(q, q[0]) == 0 && Without(q, q[0]) == q[1..];
  }

  lemma PollOnceStage(s: State, x: TaskId)
    requires Sane(s) && s.tq != [] && NoDup(s.tq) && HeadPrivate(s)
    requires Owner(s.timers[s.tq[0]]) < |s.core.tasks| && s.timers[s.tq[0]].status == Added
    requires x < |s.calls| && StageOk(s.calls[x], s.core.tasks[x], s.timers, s.tq)
    requires CallLinked(s.calls[x], x, s.core.tasks[x], s.timers, s.ports)
    ensures StageOk(s.calls[x], PollOnce(s).core.tasks[x], PollOnce(s).timers, PollOnce(s).tq)
  {
    var t := s.timers[s.tq[0]];
    SendGentle(s.core, Owner(t), t.signal);
    HeadLeaves(s.tq);
  }

  lemma PollOnceStep(s: State)
    requires KInv(s) && s.tq != [] && HeadPrivate(s)
    ensures Owner(s.timers[s.tq[0]]) < |s.core.tasks| && KInv(PollOnce(s))
  {
    var h := s.tq[0];
    var t := s.timers[h];
    assert h in s.tq && TimerOk(t, h in s.tq, |s.core.tasks|);
    var s' := PollOnce(s);
    SendKeeps(s.core, Owner(t), t.signal);
    assert TimersOk(|s.core.tasks|, s'.timers, s'.tq, s'.stamps) by {
      RemoveTimerKeeps(|s.core.tasks|, s.timers, s.tq, s.stamps, h, s'.timers[h]);
      assert IndexOf(s.tq, h) == 0 && Without(s.tq, h) == s.tq[1..];
    }
    KInvIsOthers(s);
    forall x | 0 <= x < |s.calls| ensures TaskLinked(s', x) {
      PollOnceTask(s, x);
    }
    KInvIsOthers(s');
  }

  // DueSignals only reads a timer's tick, task and signal.
  lemma DueFrame(timers: seq<Timer>, timers': seq<Timer>, tq: seq<TimerId>, now: Ticks, t: TaskId, own: TimerId)
    requires |timers'| == |timers| && forall i :: 0 <= i < |tq| ==> tq[i] < |timers|
    requires forall i :: 0 <= i < |tq| ==> timers'[tq[i]] == timers[tq[i]]
    ensures DueSignals(timers', tq, now, t, own) == DueSignals(timers, tq, now, t, own)
  {
    if tq != [] { DueFrame(timers, timers', tq[1..], now, t, own); }
  }

  ghost predicate QuietDue(s: State, now: Ticks)
    requires TimersInRange(s.tq, s.timers)
  {
    forall t :: 0 <= t < |s.calls| && s.calls[t].InTimer? && s.calls[t].delaying && s.calls[t].timer < |s.timers| ==>
      DueSignals(s.timers, s.tq, now, t, s.calls[t].timer) * s.timers[s.calls[t].timer].signal == {}
  }

  lemma PolledUnfold(s: State, now: Ticks)
    requires Linked(s) && s.tq != [] && s.timers[s.tq[0]].tick <= now && Linked(PollOnce(s))
    ensures Polled(s, now) == Polled(PollOnce(s), now)
  {}

  lemma PollStep(s: State, now: Ticks)
    requires KInv(s) && QuietDue(s, now)
    ensures Linked(s) && KInv(Polled(s, now))
    decreases |s.tq|
  {
    KInvLinked(s);
    if s.tq != [] && s.timers[s.tq[0]].tick <= now {
      HeadIsPrivate(s, now);
      PollOnceStep(s);
      PollOnceQuiet(s, now);
      PollStep(PollOnce(s), now);
      PolledUnfold(s, now);
    }
  }

  lemma HeadIsPrivate(s: State, now: Ticks)
    requires Sane(s) && QuietDue(s, now) && s.tq != [] && s.timers[s.tq[0]].tick <= now
    ensures HeadPrivate(s)
  {
    var h, x := s.tq[0], Owner(s.timers[s.tq[0]]);
    if x < |s.calls| && s.calls[x].InTimer? && s.calls[x].timer != h {
      assert s.timers[h].signal <= DueSignals(s.timers, s.tq, now, x, s.calls[x].timer);
    }
  }

  lemma PollOnceQuiet(s: State, now: Ticks)
    requires KInv(s) && Linked(s) && QuietDue(s, now) && s.tq != [] && s.timers[s.tq[0]].tick <= now
    ensures TimersInRange(PollOnce(s).tq, PollOnce(s).timers) && QuietDue(PollOnce(s), now)
  {
    var s' := PollOnce(s);
    forall t | 0 <= t < |s.calls| && s.calls[t].InTimer? && s.calls[t].delaying && s.calls[t].timer < |s.timers|
      ensures DueSignals(s'.timers, s'.tq, now, t, s.calls[t].timer) * s'.timers[s.calls[t].timer].signal == {}
    {
      DueFrame(s.timers, s'.timers, s.tq[1..], now, t, s.calls[t].timer);
      assert DueSignals(s'.timers, s'.tq, now, t, s.calls[t].timer)
          <= DueSignals(s.timers, s.tq, now, t, s.calls[t].timer);
    }
  }
}
