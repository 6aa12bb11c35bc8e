// Timers and the clock: what timer_poll does exactly, and that timer_delay is never early.
module Timing {
  import opened Queues
  import opened Scheduler
  import opened SchedulerInv
  import opened Machine
  import opened MachineInv
  import opened MachineSteps
  import opened MachineTimers
  import opened MachineRuns

  // -- timer_poll --

  // How many timers at the head of the queue are due.
  function DueCount(timers: seq<Timer>, tq: seq<TimerId>, now: Ticks): (k: nat)
    requires TimersInRange(tq, timers)
    ensures k <= |tq|
  {
    Slot(Keys(tq, timers), 0 - now)
  }

  lemma DueCountUnfold(timers: seq<Timer>, tq: seq<TimerId>, now: Ticks)
    requires TimersInRange(tq, timers)
    ensures DueCount(timers, tq, now) ==
      if tq == [] || now < timers[tq[0]].tick then 0 else 1 + DueCount(timers, tq[1..], now)
  {
    if tq != [] { assert Keys(tq, timers)[1..] == Keys(tq[1..], timers); }
  }

  lemma DueCountFrame(timers: seq<Timer>, timers': seq<Timer>, tq: seq<TimerId>, now: Ticks)
    requires TimersInRange(tq, timers) && TimersInRange(tq, timers')
    requires forall i :: 0 <= i < |tq| ==> timers'[tq[i]].tick == timers[tq[i]].tick
    ensures DueCount(timers', tq, now) == DueCount(timers, tq, now)
  {
    assert Keys(tq, timers') == Keys(tq, timers);
  }

  // In a sorted queue the due timers are exactly the counted prefix.
  lemma DueIsPrefix(timers: seq<Timer>, tq: seq<TimerId>, now: Ticks, i: nat)
    requires TimersInRange(tq, timers) && Sorted(TimerRanks(tq, timers)) && i < |tq|
    ensures i < DueCount(timers, tq, now) <==> timers[tq[i]].tick <= now
  {
    assert KeysOf(TimerRanks(tq, timers)) == Keys(tq, timers);
    SlotSplits(TimerRanks(tq, timers), 0 - now, i);
  }

  // A due timer at the head: timer_poll goes on without it.
  lemma PollUnfold(c: Core, timers: seq<Timer>, tq: seq<TimerId>, now: Ticks) returns (c1: Core, timers1: seq<Timer>)
    requires Pollable(c, timers, tq) && tq != [] && timers[tq[0]].tick <= now
    ensures timers1 == timers[tq[0] := Expired(timers[tq[0]])] && |c1.tasks| == |c.tasks|
    ensures forall t :: 0 <= t < |c.tasks| ==>
      && c1.tasks[t].sigRecvd == c.tasks[t].sigRecvd + (if Owner(timers[tq[0]]) == t then timers[tq[0]].signal else {})
      && c1.tasks[t].sigWait == c.tasks[t].sigWait && c1.tasks[t].phase == c.tasks[t].phase
    ensures Pollable(c1, timers1, tq[1..]) && Poll(c, timers, tq, now) == Poll(c1, timers1, tq[1..], now)
  {
    c1, timers1 := SendHead(c, timers, tq), timers[tq[0] := Expired(timers[tq[0]])];
  }

  lemma PrefixOfTail(q: seq<TimerId>, k: nat, x: TimerId)
    requires 0 < k <= |q| && NoDup(q)
    ensures x in q[..k] <==> x == q[0] || x in q[1..][..k - 1]
    ensures q[0] !in q[1..]
  {
    assert q[..k] == [q[0]] + q[1..][..k - 1];
  }

  lemma {:induction false} PollTimers(c: Core, timers: seq<Timer>, tq: seq<TimerId>, now: Ticks, x: TimerId)
    requires Pollable(c, timers, tq) && NoDup(tq)
    requires x < |timers|
    ensures Poll(c, timers, tq, now).1[x] ==
      if x in tq[..DueCount(timers, tq, now)] then Expired(timers[x]) else timers[x]
    decreases |tq|
  {
    DueCountUnfold(timers, tq, now);
    if tq != [] && timers[tq[0]].tick <= now {
      var c1, timers1 := PollUnfold(c, timers, tq, now);
      PollTimers(c1, timers1, tq[1..], now, x);
      DueCountFrame(timers, timers1, tq[1..], now);
      PrefixOfTail(tq, DueCount(timers, tq, now), x);
    }
  }

  lemma {:induction false} PollRest(c: Core, timers: seq<Timer>, tq: seq<TimerId>, now: Ticks)
    requires Pollable(c, timers, tq) && NoDup(tq)
    ensures Poll(c, timers, tq, now).2 == tq[DueCount(timers, tq, now)..]
    decreases |tq|
  {
    DueCountUnfold(timers, tq, now);
    if tq != [] && timers[tq[0]].tick <= now {
      var c1, timers1 := PollUnfold(c, timers, tq, now);
      PollRest(c1, timers1, tq[1..], now);
      DueCountFrame(timers, timers1, tq[1..], now);
      var k := DueCount(timers, tq, now);
      assert tq[1..][k - 1..] == tq[k..];
    }
  }

  lemma PollQueue(c: Core, timers: seq<Timer>, tq: seq<TimerId>, now: Ticks)
    requires Pollable(c, timers, tq) && NoDup(tq)
    ensures var r, k := Poll(c, timers, tq, now), DueCount(timers, tq, now);
      && r.2 == tq[k..]
      && (forall x :: 0 <= x < |timers| ==> r.1[x] == if x in tq[..k] then Expired(timers[x]) else timers[x])
  {
    PollRest(c, timers, tq, now);
    forall x | 0 <= x < |timers|
      ensures Poll(c, timers, tq, now).1[x] ==
        if x in tq[..DueCount(timers, tq, now)] then Expired(timers[x]) else timers[x]
    {
      PollTimers(c, timers, tq, now, x);
    }
  }

  lemma {:induction false} PollSignals(c: Core, timers: seq<Timer>, tq: seq<TimerId>, now: Ticks, t: TaskId)
    requires Pollable(c, timers, tq) && NoDup(tq)
    requires t < |c.tasks|
    ensures Poll(c, timers, tq, now).0.tasks[t].sigRecvd
         == c.tasks[t].sigRecvd + DueSignals(timers, tq, now, t, |timers|)
    decreases |tq|
  {
    if tq != [] && timers[tq[0]].tick <= now {
      var c1, timers1 := PollUnfold(c, timers, tq, now);
      PollSignals(c1, timers1, tq[1..], now, t);
      DueFrame(timers, timers1, tq[1..], now, t, |timers|);
    }
  }

  // DueSignals has exactly the signals of t's due timers, `own` left out.
  ghost predicate NamedBy(timers: seq<Timer>, tm: TimerId, t: TaskId, own: TimerId, n: nat)
    requires tm < |timers|
  {
    tm != own && Owner(timers[tm]) == t && n in timers[tm].signal
  }

  lemma {:induction false} DueMembers(timers: seq<Timer>, tq: seq<TimerId>, now: Ticks, t: TaskId, own: TimerId, n: nat)
    requires TimersInRange(tq, timers)
    ensures n in DueSignals(timers, tq, now, t, own) <==>
      exists i :: 0 <= i < DueCount(timers, tq, now) && NamedBy(timers, tq[i], t, own, n)
    decreases |tq|
  {
    DueCountUnfold(timers, tq, now);
    if tq != [] && timers[tq[0]].tick <= now {
      DueMembers(timers, tq[1..], now, t, own, n);
      var k := DueCount(timers, tq, now);
      if i :| 0 <= i < k - 1 && NamedBy(timers, tq[1..][i], t, own, n) {
        assert NamedBy(timers, tq[i + 1], t, own, n);
      }
      if i :| 0 < i < k && NamedBy(timers, tq[i], t, own, n) {
        assert NamedBy(timers, tq[1..][i - 1], t, own, n);
      }
    }
  }

  // In a sorted queue the due timers are those whose tick has come.
  lemma DueSignalsExact(timers: seq<Timer>, tq: seq<TimerId>, now: Ticks, t: TaskId, own: TimerId, n: nat)
    requires TimersInRange(tq, timers) && Sorted(TimerRanks(tq, timers))
    ensures n in DueSignals(timers, tq, now, t, own) <==>
      exists i :: 0 <= i < |tq| && timers[tq[i]].tick <= now && NamedBy(timers, tq[i], t, own, n)
  {
    DueMembers(timers, tq, now, t, own, n);
    forall i | 0 <= i < |tq| ensures i < DueCount(timers, tq, now) <==> timers[tq[i]].tick <= now {
      DueIsPrefix(timers, tq, now, i);
    }
  }

  ghost predicate PolledExactly(s: State, now: Ticks)
    requires Linked(s)
  {
    var s', k := Polled(s, now), DueCount(s.timers, s.tq, now);
    && s'.tq == s.tq[k..]
    && (forall i :: 0 <= i < |s.tq| ==> (i < k <==> s.timers[s.tq[i]].tick <= now))
    && |s'.timers| == |s.timers|
    && (forall x :: 0 <= x < |s.timers| ==>
          s'.timers[x] == if x in s.tq[..k] then Expired(s.timers[x]) else s.timers[x])
    && |s'.core.tasks| == |s.core.tasks|
    && (forall t :: 0 <= t < |s.core.tasks| ==>
          s'.core.tasks[t].sigRecvd == s.core.tasks[t].sigRecvd + DueSignals(s.timers, s.tq, now, t, |s.timers|))
  }

  // timer_poll(now) in any reachable state: the queued timers with tick <= now are
  // exactly a prefix, which is removed; each of them becomes DONE and nothing else
  // changes; and each task's pending signals grow by exactly the signals of its own
  // expired timers. So every timer left in the queue has a later tick.
  lemma PollExact(s: State, now: Ticks)
    requires Reachable(s)
    ensures Linked(s) && PolledExactly(s, now)
  {
    ReachableKInv(s);
    KInvLinked(s);
    PollQueue(s.core, s.timers, s.tq, now);
    forall i | 0 <= i < |s.tq| ensures i < DueCount(s.timers, s.tq, now) <==> s.timers[s.tq[i]].tick <= now {
      DueIsPrefix(s.timers, s.tq, now, i);
    }
    PolledSignals(s, now);
  }

  lemma PolledSignals(s: State, now: Ticks)
    requires Linked(s) && NoDup(s.tq)
    ensures |Polled(s, now).core.tasks| == |s.core.tasks|
    ensures forall t :: 0 <= t < |s.core.tasks| ==>
      Polled(s, now).core.tasks[t].sigRecvd
        == s.core.tasks[t].sigRecvd + DueSignals(s.timers, s.tq, now, t, |s.timers|)
  {
    forall t | 0 <= t < |s.core.tasks|
      ensures Polled(s, now).core.tasks[t].sigRecvd
           == s.core.tasks[t].sigRecvd + DueSignals(s.timers, s.tq, now, t, |s.timers|)
    {
      PollSignals(s.core, s.timers, s.tq, now, t);
    }
  }

  // The timer queue in every reachable state: sorted by tick, equal ticks in the order
  // of their insertion; a queued timer is ADDED and owned; and a timer has left the
  // queue exactly as often as it has entered, but for its present stay.
  lemma TimerQueueAlwaysSorted(s: State)
    requires Reachable(s)
    ensures TimersInRange(s.tq, s.timers) && NoDup(s.tq)
    ensures forall i, j :: 0 <= i < j < |s.tq| ==>
      var a, b := s.timers[s.tq[i]], s.timers[s.tq[j]];
      a.tick < b.tick || (a.tick == b.tick && a.stamp < b.stamp)
    ensures forall x :: 0 <= x < |s.timers| ==>
      && (x in s.tq ==> s.timers[x].status == Added && s.timers[x].task.Some?)
      && s.timers[x].added - s.timers[x].left == if x in s.tq then 1 else 0
  {
    ReachableKInv(s);
    forall i, j | 0 <= i < j < |s.tq|
      ensures var a, b := s.timers[s.tq[i]], s.timers[s.tq[j]];
        a.tick < b.tick || (a.tick == b.tick && a.stamp < b.stamp)
    {
      assert Before(TimerRanks(s.tq, s.timers)[i], TimerRanks(s.tq, s.timers)[j]);
    }
    forall x | 0 <= x < |s.timers|
      ensures TimerOk(s.timers[x], x in s.tq, |s.core.tasks|)
    {}
  }

  // ADDED are exactly the timers in the queue and those that timer_abort took out of it
  // and that were neither added again nor freed since.
  lemma AddedExactly(s: State, x: TimerId)
    requires Reachable(s) && x < |s.timers|
    ensures s.timers[x].status == Added <==> x in s.tq || s.timers[x].aborted
    ensures !(x in s.tq && s.timers[x].aborted)
  {
    ReachableKInv(s);
    assert TimerOk(s.timers[x], x in s.tq, |s.core.tasks|);
  }

  // -- timer_delay --

  // The epoch of a deadline `ticks` after a time stamp. The tick of the timer shows the
  // deadline within that epoch.
  function DueEpoch(stamped: Moment, ticks: Ticks): nat {
    if stamped.clock + ticks < TICKS then stamped.epoch else stamped.epoch + 1
  }

  lemma TickIsDeadline(stamped: Moment, ticks: Ticks)
    ensures Time(Moment(DueEpoch(stamped, ticks), AddTicks(stamped.clock, ticks))) == Time(stamped) + ticks
  {}

  // What a timer_delay knows about its times. A stamp that is tested in an earlier epoch
  // than its deadline's is refused at once.
  ghost predicate DelayTime(call: Call, timers: seq<Timer>, now: Moment) {
    call.InTimer? && call.delaying && call.timer < |timers| ==>
      var tm, due := timers[call.timer], DueEpoch(call.stamped, call.ticks);
      && Time(call.start) <= Time(now)
      && tm.delay == call.ticks
      && (call.stage in {Stamping, Checking, Inserting} ==> tm.status == Idling)
      && (call.stage != Stamping ==>
           && Time(call.start) <= Time(call.stamped) <= Time(now)
           && tm.tick == AddTicks(call.stamped.clock, call.ticks))
      && (call.stage !in {Stamping, Checking} ==>
           && Time(call.stamped) <= Time(call.checked) <= Time(now)
           && (call.checked.epoch < due ==> call.stage in {Testing, Releasing} && tm.status == Aborted)
           && (call.checked.epoch >= due && call.stage != Inserting && tm.status == Aborted ==>
                Time(call.stamped) + call.ticks <= Time(call.checked))
           && (call.checked.epoch >= due && call.stage != Inserting && tm.status != Added ==>
                Time(call.stamped) + call.ticks <= Time(now)))
  }

  ghost predicate DelayTimes(s: State) {
    forall t :: 0 <= t < |s.calls| ==> DelayTime(s.calls[t], s.timers, Now(s))
  }

  // What may happen to a timer that its own timer_add or timer_delay does not touch.
  ghost predicate TimerKept(tm: Timer, tm': Timer, clock: Ticks) {
    && tm'.tick == tm.tick && tm'.delay == tm.delay
    && (tm'.status != tm.status ==> tm.status == Added && tm'.status == Done && tm.tick <= clock)
  }

  lemma PollKeepsTimers(s: State, x: TimerId)
    requires KInv(s) && Linked(s) && x < |s.timers|
    ensures var s' := ApplyTim2(s); x < |s'.timers| && TimerKept(s.timers[x], s'.timers[x], s'.clock)
  {
    var now := AddTicks(s.clock, 1);
    PollQueue(s.core, s.timers, s.tq, now);
    var k := DueCount(s.timers, s.tq, now);
    if x in s.tq[..k] {
      var i := IndexOf(s.tq[..k], x);
      assert s.tq[i] == x;
      DueIsPrefix(s.timers, s.tq, now, i);
      assert TimerOk(s.timers[x], x in s.tq, |s.core.tasks|);
    }
  }

  // No timer action reaches the timer of another task's timer_delay.
  lemma TimerActionKeepsTimers(s: State, a: Action, t: TaskId)
    requires KInv(s) && Linked(s) && Enabled(s, a) && TimerAction(a)
    requires t < |s.calls| && t != Me(s) && s.calls[t].InTimer? && s.calls[t].delaying
    ensures var s', x := ApplyTimer(s, a), s.calls[t].timer;
      x < |s.timers| <= |s'.timers| && s'.timers[x] == s.timers[x] && Now(s') == Now(s) && s'.calls[t] == s.calls[t]
  {
    KInvIsOthers(s);
    OthersTimer(s, t);
  }

  // An action that leaves a task's call leaves its timer_delay on time.
  lemma StillOnTime(call: Call, timers: seq<Timer>, timers': seq<Timer>, now: Moment, now': Moment)
    requires DelayTime(call, timers, now) && Time(now) <= Time(now') && now.epoch <= now'.epoch
    requires call.InTimer? && call.delaying ==>
      call.timer < |timers| <= |timers'| && TimerKept(timers[call.timer], timers'[call.timer], now'.clock)
    requires call.InTimer? && call.stage in {Stamping, Checking, Inserting} && call.timer < |timers| ==>
      timers[call.timer].status != Added
    ensures DelayTime(call, timers', now')
  {
    if call.InTimer? { TickIsDeadline(call.stamped, call.ticks); }
  }

  // Only the timer actions put a task into a timer call.
  ghost predicate CallsKept(s: State, s': State) {
    && s'.timers == s.timers && Now(s') == Now(s) && |s.calls| <= |s'.calls|
    && (forall t :: 0 <= t < |s'.calls| ==>
          (t < |s.calls| && s'.calls[t] == s.calls[t]) || !s'.calls[t].InTimer?)
  }

  lemma PortLoopCalls(s: State, p: PortId)
    requires Sane(s) && p < |s.ports| && !s.calls[Me(s)].InTimer?
    ensures CallsKept(s, PortLoop(s, p))
    decreases s.ports[p].signal * Run(s.core).sigRecvd != {}
  {
    if s.ports[p].queue == [] && s.ports[p].signal * Run(s.core).sigRecvd != {} {
      PortLoopCalls(s.(core := WaitEnter(s.core, s.ports[p].signal)), p);
    }
  }

  lemma TaskCalls(s: State, a: Action)
    requires Linked(s) && Enabled(s, a) && TaskAction(a)
    ensures CallsKept(s, ApplyTask(s, a))
  {}

  lemma SemCalls(s: State, a: Action)
    requires Linked(s) && Enabled(s, a) && SemAction(a)
    ensures CallsKept(s, ApplySem(s, a))
  {}

  lemma MsgCalls(s: State, a: Action)
    requires Linked(s) && Enabled(s, a) && MsgAction(a)
    ensures CallsKept(s, ApplyPort(s, a))
  {
    if a.PortWait? {
      PortLoopCalls(SetCall(s.(core := s.core.(nest := s.core.nest + 1)), InPort(a.port, s.core.nest)), a.port);
    }
  }

  lemma TimerActionOnTime(s: State, a: Action)
    requires KInv(s) && Linked(s) && Enabled(s, a) && TimerAction(a) && DelayTimes(s)
    ensures DelayTimes(ApplyTimer(s, a))
  {
    var s' := ApplyTimer(s, a);
    forall t | 0 <= t < |s'.calls| ensures DelayTime(s'.calls[t], s'.timers, Now(s')) {
      if t != Me(s) && s.calls[t].InTimer? && s.calls[t].delaying {
        TimerActionKeepsTimers(s, a, t);
        assert DelayTime(s.calls[t], s.timers, Now(s));
      }
    }
  }

  lemma Tim2OnTime(s: State)
    requires KInv(s) && Linked(s) && DelayTimes(s)
    ensures DelayTimes(ApplyTim2(s))
  {
    var s' := ApplyTim2(s);
    forall t | 0 <= t < |s'.calls| ensures DelayTime(s'.calls[t], s'.timers, Now(s')) {
      assert DelayTime(s.calls[t], s.timers, Now(s));
      if s.calls[t].InTimer? {
        assert CallLinked(s.calls[t], t, s.core.tasks[t], s.timers, s.ports);
        PollKeepsTimers(s, s.calls[t].timer);
        StillOnTime(s.calls[t], s.timers, s'.timers, Now(s), Now(s'));
      }
    }
  }

  // The others' timer_delay calls while the running task goes on with its own call.
  lemma OthersOnTime(s: State, s': State, x: TimerId)
    requires KInv(s) && DelayTimes(s) && Now(s') == Now(s) && |s'.calls| == |s.calls| && |s'.timers| == |s.timers|
    requires s.calls[Me(s)].InTimer? && s.calls[Me(s)].timer == x
    requires forall y :: 0 <= y < |s.timers| && y != x ==> s'.timers[y] == s.timers[y]
    requires forall t :: 0 <= t < |s.calls| && t != Me(s) ==> s'.calls[t] == s.calls[t]
    requires DelayTime(s'.calls[Me(s)], s'.timers, Now(s))
    ensures DelayTimes(s')
  {
    MyTimer(s);
    forall t | 0 <= t < |s'.calls| ensures DelayTime(s'.calls[t], s'.timers, Now(s')) {
      assert DelayTime(s.calls[t], s.timers, Now(s));
      if t != Me(s) && s.calls[t].InTimer? { OthersTimer(s, t); }
    }
  }

  lemma TimerStepOnTime(s: State)
    requires KInv(s) && Linked(s) && DelayTimes(s)
    requires s.calls[Me(s)].InTimer? && Run(s.core).phase == Idle
    ensures DelayTimes(TimerStep(s))
  {
    MyTimer(s);
    TimerStepFrame(s);
    TimerStepOwn(s);
    OthersOnTime(s, TimerStep(s), s.calls[Me(s)].timer);
  }

  lemma TimerStepFrame(s: State)
    requires Sane(s) && s.calls[Me(s)].InTimer? && s.calls[Me(s)].timer < |s.timers|
    ensures var s', x := TimerStep(s), s.calls[Me(s)].timer;
      && Now(s') == Now(s) && |s'.calls| == |s.calls| && |s'.timers| == |s.timers|
      && (forall y :: 0 <= y < |s.timers| && y != x ==> s'.timers[y] == s.timers[y])
      && (forall t :: 0 <= t < |s.calls| && t != Me(s) ==> s'.calls[t] == s.calls[t])
  {}

  lemma TimerStepOwn(s: State)
    requires Sane(s) && DelayTimes(s)
    requires s.calls[Me(s)].InTimer? && s.calls[Me(s)].timer < |s.timers|
    requires StageOk(s.calls[Me(s)], Run(s.core), s.timers, s.tq)
    ensures Me(s) < |TimerStep(s).calls|
    ensures DelayTime(TimerStep(s).calls[Me(s)], TimerStep(s).timers, Now(s))
  {
    assert DelayTime(s.calls[Me(s)], s.timers, Now(s));
  }

  lemma ResumeOnTime(s: State)
    requires KInv(s) && Linked(s) && Enabled(s, Proceed) && DelayTimes(s) && Run(s.core).phase.Kicked?
    ensures DelayTimes(ApplyProceed(s))
  {
    var call := s.calls[Me(s)];
    KInvIsOthers(s);
    ResumeKeeps(s.core);
    assert CallOk(call, Me(s), Run(s.core), true, s.core.nest);
    assert DelayTime(call, s.timers, Now(s));
    var s1 := s.(core := Resume(s.core));
    if call.InTimer? {
      assert StageOk(call, Run(s.core), s.timers, s.tq);
      OthersOnTime(s, ApplyProceed(s), call.timer);
    } else if call.InPort? {
      PortLoopCalls(s1, call.port);
      KeptOnTime(s, ApplyProceed(s));
    } else {
      KeptOnTime(s, ApplyProceed(s));
    }
  }

  lemma KeptOnTime(s: State, s': State)
    requires DelayTimes(s) && CallsKept(s, s')
    ensures DelayTimes(s')
  {
    forall t | 0 <= t < |s'.calls| ensures DelayTime(s'.calls[t], s'.timers, Now(s')) {
      if t < |s.calls| { assert DelayTime(s.calls[t], s.timers, Now(s)); }
    }
  }

  lemma ProceedOnTime(s: State)
    requires KInv(s) && Linked(s) && Enabled(s, Proceed) && DelayTimes(s)
    ensures DelayTimes(ApplyProceed(s))
  {
    assert CallOk(s.calls[Me(s)], Me(s), Run(s.core), true, s.core.nest);
    match Run(s.core).phase
    case Window(_, _) => KeptOnTime(s, s.(core := Kick(s.core)));
    case Kicked(_, _) => ResumeOnTime(s);
    case Idle =>
      if s.calls[Me(s)].InTimer? { TimerStepOnTime(s); } else { KeptOnTime(s, ApplyProceed(s)); }
  }

  lemma ActionOnTime(s: State, a: Action)
    requires KInv(s) && Linked(s) && Enabled(s, a) && DelayTimes(s)
    ensures DelayTimes(Apply(s, a))
  {
    if TaskAction(a) {
      TaskCalls(s, a);
      KeptOnTime(s, ApplyTask(s, a));
    } else if SemAction(a) {
      SemCalls(s, a);
      KeptOnTime(s, ApplySem(s, a));
    } else if MsgAction(a) {
      MsgCalls(s, a);
      KeptOnTime(s, ApplyPort(s, a));
    } else if TimerAction(a) {
      TimerActionOnTime(s, a);
    } else if a.Proceed? {
      ProceedOnTime(s);
    } else if a.Tim2? {
      Tim2OnTime(s);
    } else {
      KeptOnTime(s, Apply(s, a));
    }
  }

  lemma {:induction false} RunOnTime(s: State, actions: seq<Action>, s': State)
    requires KInv(s) && DelayTimes(s) && Leads(s, actions, s')
    ensures KInv(s') && DelayTimes(s')
    decreases |actions|
  {
    if actions != [] {
      ActionKeeps(s, actions[0]);
      ActionOnTime(s, actions[0]);
      RunOnTime(Apply(s, actions[0]), actions[1..], s');
    }
  }

  lemma BootOnTime()
    ensures KInv(Boot()) && DelayTimes(Boot())
  {
    BootKInv();
  }

  lemma ReachableOnTime(s: State)
    requires Reachable(s)
    ensures KInv(s) && DelayTimes(s)
  {
    BootOnTime();
    var actions :| Leads(Boot(), actions, s);
    RunOnTime(Boot(), actions, s);
  }

  // How a timer_delay that began at `start` returns at `now`: never before its deadline,
  // unless its stamp was tested in an earlier epoch than the deadline's.
  ghost predicate ReturnsOnTime(call: Call, result: Result, now: Moment)
    requires call.InTimer?
  {
    && result == Delayed(call.start, call.ticks, call.stamped, call.checked)
    && Time(call.start) <= Time(call.stamped) <= Time(call.checked) <= Time(now)
    && (call.checked.epoch >= DueEpoch(call.stamped, call.ticks) ==> Time(call.stamped) + call.ticks <= Time(now))
  }

  // timer_delay(n) returns only when n ticks have passed since its call, over all
  // interleavings, except for a deadline in a later epoch than the test of its stamp.
  lemma DelayIsNeverEarly(s: State, a: Action)
    requires Reachable(s) && Linked(s) && Enabled(s, a)
    requires s.calls[Me(s)].InTimer? && s.calls[Me(s)].delaying
    ensures Me(s) < |Apply(s, a).calls|
    ensures Apply(s, a).calls[Me(s)].User? ==>
      ReturnsOnTime(s.calls[Me(s)], Apply(s, a).calls[Me(s)].last, Now(Apply(s, a)))
  {
    ReachableOnTime(s);
    DelayReturn(s, a);
  }

  // While the clock has not wrapped around since the start, the clock itself tells: at
  // the return the delay has passed exactly if the time stamp did not wrap around.
  lemma DelayPassesExactly(s: State, a: Action)
    requires Reachable(s) && Linked(s) && Enabled(s, a) && Apply(s, a).epoch == 0
    requires s.calls[Me(s)].InTimer? && s.calls[Me(s)].delaying
    ensures Me(s) < |Apply(s, a).calls|
    ensures Apply(s, a).calls[Me(s)].User? ==>
      var c0, n := s.calls[Me(s)].stamped.clock, s.calls[Me(s)].ticks;
      Apply(s, a).clock >= c0 + n <==> c0 + n < TICKS
  {
    DelayIsNeverEarly(s, a);
  }

  // Past its test, a delay was refused before its deadline exactly if the deadline lies
  // in a later epoch than the test. It then goes on to return without waiting.
  lemma RefusedEarlyExactly(s: State, t: TaskId)
    requires Reachable(s) && t < |s.calls| && s.calls[t].InTimer? && s.calls[t].delaying
    requires s.calls[t].stage !in {Stamping, Checking}
    ensures s.calls[t].timer < |s.timers|
    ensures var call, tm := s.calls[t], s.timers[s.calls[t].timer];
      && (tm.status == Aborted && Time(call.checked) < Time(call.stamped) + call.ticks
          <==> call.checked.epoch < DueEpoch(call.stamped, call.ticks))
      && (call.checked.epoch < DueEpoch(call.stamped, call.ticks) ==> call.stage in {Testing, Releasing})
  {
    ReachableOnTime(s);
    assert CallLinked(s.calls[t], t, s.core.tasks[t], s.timers, s.ports);
    assert DelayTime(s.calls[t], s.timers, Now(s));
    TickIsDeadline(s.calls[t].stamped, s.calls[t].ticks);
  }

  lemma DelayReturn(s: State, a: Action)
    requires KInv(s) && DelayTimes(s) && Linked(s) && Enabled(s, a)
    requires s.calls[Me(s)].InTimer? && s.calls[Me(s)].delaying
    ensures Me(s) < |Apply(s, a).calls|
    ensures Apply(s, a).calls[Me(s)].User? ==>
      ReturnsOnTime(s.calls[Me(s)], Apply(s, a).calls[Me(s)].last, Now(Apply(s, a)))
  {
    if a.Proceed? {
      ProceedReturn(s);
    } else {
      IrqKeepsCalls(s, a);
    }
  }

  lemma IrqKeepsCalls(s: State, a: Action)
    requires Linked(s) && Enabled(s, a) && !AtUser(s) && !a.Proceed?
    ensures Apply(s, a).calls == s.calls
  {}

  lemma ProceedReturn(s: State)
    requires KInv(s) && DelayTimes(s) && Linked(s) && Enabled(s, Proceed)
    requires s.calls[Me(s)].InTimer? && s.calls[Me(s)].delaying
    ensures var s' := ApplyProceed(s);
      && Me(s) < |s'.calls| && Now(s') == Now(s)
      && (s'.calls[Me(s)].User? ==> ReturnsOnTime(s.calls[Me(s)], s'.calls[Me(s)].last, Now(s)))
  {
    var call := s.calls[Me(s)];
    assert CallOk(call, Me(s), Run(s.core), true, s.core.nest);
    if Run(s.core).phase == Idle {
      StepReturn(s);
    } else if Run(s.core).phase.Kicked? {
      ResumeKeeps(s.core);
    }
  }

  lemma StepReturn(s: State)
    requires KInv(s) && DelayTimes(s) && Run(s.core).phase == Idle
    requires s.calls[Me(s)].InTimer? && s.calls[Me(s)].delaying
    ensures s.calls[Me(s)].timer < |s.timers|
    ensures var s' := TimerStep(s);
      && Me(s) < |s'.calls| && Now(s') == Now(s)
      && (s'.calls[Me(s)].User? ==> ReturnsOnTime(s.calls[Me(s)], s'.calls[Me(s)].last, Now(s)))
  {
    MyTimer(s);
    assert DelayTime(s.calls[Me(s)], s.timers, Now(s));
  }

  // -- A waiting timer_delay is woken in time --

  ghost predicate WaitsInDelay(s: State, t: TaskId) {
    && t < |s.calls| == |s.core.tasks| && s.calls[t].InTimer? && s.calls[t].stage == Blocking
    && s.core.tasks[t].state == Waiting
  }

  lemma WaitingTimer(s: State, t: TaskId)
    requires KInv(s) && WaitsInDelay(s, t)
    ensures var tm := s.calls[t].timer;
      && tm < |s.timers| && tm in s.tq && s.timers[tm].task == Some(t) && s.timers[tm].signal != {}
      && s.core.tasks[t].sigWait == s.timers[tm].signal && s.calls[t].delaying
  {
    assert CallOk(s.calls[t], t, s.core.tasks[t], t == s.core.running, s.core.nest);
    assert CallLinked(s.calls[t], t, s.core.tasks[t], s.timers, s.ports);
    assert StageOk(s.calls[t], s.core.tasks[t], s.timers, s.tq);
    assert TaskOk(s.core.tasks[t]);
  }

  // A task that waits in timer_delay has its timer in the queue.
  lemma DelayWaitsInQueue(s: State, t: TaskId)
    requires Reachable(s) && WaitsInDelay(s, t)
    ensures s.calls[t].timer in s.tq
  {
    ReachableKInv(s);
    WaitingTimer(s, t);
  }

  // ... and the timer interrupt ends its wait exactly when it reaches the timer's tick.
  lemma DelayIsWokenAtTick(s: State, t: TaskId)
    requires Reachable(s) && Linked(s) && Enabled(s, Tim2) && Private(s, Tim2) && WaitsInDelay(s, t)
    ensures s.calls[t].timer < |s.timers| && |Apply(s, Tim2).core.tasks| == |s.core.tasks|
    ensures Apply(s, Tim2).core.tasks[t].state == Waiting
       <==> Apply(s, Tim2).clock < s.timers[s.calls[t].timer].tick
  {
    ReachableKInv(s);
    ActionKeeps(s, Tim2);
    WaitingTimer(s, t);
    var now := AddTicks(s.clock, 1);
    PolledSignals(s, now);
    PolledWaits(s, t);
    OwnTimerDue(s, t, now);
    assert TaskOk(Apply(s, Tim2).core.tasks[t]);
  }

  // timer_poll changes neither what a task waits for nor where it stands in its call.
  lemma {:induction false} PollKeepsWait(c: Core, timers: seq<Timer>, tq: seq<TimerId>, now: Ticks, t: TaskId)
    requires Pollable(c, timers, tq) && t < |c.tasks|
    ensures var u := Poll(c, timers, tq, now).0.tasks[t];
      u.sigWait == c.tasks[t].sigWait && u.phase == c.tasks[t].phase
    decreases |tq|
  {
    if tq != [] && timers[tq[0]].tick <= now {
      var c1, timers1 := PollUnfold(c, timers, tq, now);
      PollKeepsWait(c1, timers1, tq[1..], now, t);
    }
  }

  lemma PolledWaits(s: State, t: TaskId)
    requires Linked(s) && t < |s.core.tasks|
    ensures var u := ApplyTim2(s).core.tasks[t];
      u.sigWait == s.core.tasks[t].sigWait && u.phase == s.core.tasks[t].phase
  {
    PollKeepsWait(s.core, s.timers, s.tq, AddTicks(s.clock, 1), t);
  }

  // Nobody else sends the signal, so it is due exactly when its own timer is.
  lemma OwnTimerDue(s: State, t: TaskId, now: Ticks)
    requires KInv(s) && Linked(s) && Private(s, Tim2) && WaitsInDelay(s, t) && now == AddTicks(s.clock, 1)
    ensures s.calls[t].timer < |s.timers|
    ensures var tm := s.timers[s.calls[t].timer];
      DueSignals(s.timers, s.tq, now, t, |s.timers|) * tm.signal != {} <==> tm.tick <= now
  {
    WaitingTimer(s, t);
    var x := s.calls[t].timer;
    var sig, i0 := s.timers[x].signal, IndexOf(s.tq, x);
    var all, others := DueSignals(s.timers, s.tq, now, t, |s.timers|), DueSignals(s.timers, s.tq, now, t, x);
    assert others * sig == {} by { assert Sent(s, Tim2, t, x) == others; }
    if s.timers[x].tick <= now {
      var n :| n in sig;
      assert NamedBy(s.timers, s.tq[i0], t, |s.timers|, n);
      DueSignalsExact(s.timers, s.tq, now, t, |s.timers|, n);
      assert n in all * sig;
    }
    forall n | n in all * sig ensures s.timers[x].tick <= now {
      DueSignalsExact(s.timers, s.tq, now, t, |s.timers|, n);
      DueSignalsExact(s.timers, s.tq, now, t, x, n);
      var i :| 0 <= i < |s.tq| && s.timers[s.tq[i]].tick <= now && NamedBy(s.timers, s.tq[i], t, |s.timers|, n);
      assert n !in others * sig;
      assert s.tq[i] != x ==> NamedBy(s.timers, s.tq[i], t, x, n);
    }
  }

  // The test of a time stamp refuses it exactly when its time has come or the deadline
  // lies in a later epoch. Only a clock that wrapped around past the deadline's epoch
  // since the stamp can hide that the time has come.
  lemma WrappedStampIsRefused(s: State)
    requires Reachable(s) && Me(s) < |s.calls| && s.calls[Me(s)].InTimer? && s.calls[Me(s)].delaying
    requires s.calls[Me(s)].stage == Checking
    ensures Sane(s) && s.calls[Me(s)].timer < |s.timers|
    ensures var call, s' := s.calls[Me(s)], TimerStep(s);
      && Me(s) < |s'.calls| && s'.calls[Me(s)].InTimer? && call.timer < |s'.timers|
      && (s'.calls[Me(s)].stage == Inserting
          <==> !(s'.calls[Me(s)].stage == Testing && s'.timers[call.timer].status == Aborted))
      && (s.epoch <= DueEpoch(call.stamped, call.ticks) ==>
           (s'.calls[Me(s)].stage == Inserting
            <==> Time(Now(s)) < Time(call.stamped) + call.ticks && s.epoch == DueEpoch(call.stamped, call.ticks)))
  {
    ReachableOnTime(s);
    MyTimer(s);
    assert DelayTime(s.calls[Me(s)], s.timers, Now(s));
    TickIsDeadline(s.calls[Me(s)].stamped, s.calls[Me(s)].ticks);
  }
}
