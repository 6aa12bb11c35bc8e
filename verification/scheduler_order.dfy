// The order of the ready list, and the priority of the running task.
module SchedulerOrder {
  import opened Queues
  import opened Scheduler
  import opened SchedulerInv

  ghost predicate InBounds(c: Core) {
    c.running < |c.tasks| && InRange(c.ready, c.tasks)
  }

  // The running task has a priority at least as high as every ready task.
  ghost predicate RunningIsTop(c: Core)
    requires InBounds(c)
  {
    Run(c).state == Running && !c.pendsv ==>
      forall i :: 0 <= i < |c.ready| ==> c.tasks[c.ready[i]].prio <= Run(c).prio
  }

  // Ready tasks stand in descending order of priority.
  ghost predicate ReadyDescends(c: Core)
    requires InBounds(c)
  {
    Descending(Prios(c.ready, c.tasks))
  }

  ghost predicate Top(c: Core) {
    InBounds(c) && ReadyDescends(c) && RunningIsTop(c)
  }

  // Ready tasks stand in order of priority, then of arrival; stamps are past ones.
  ghost predicate Fifo(c: Core) {
    && InBounds(c) && Ordered(c.ready, c.tasks)
    && (forall i :: 0 <= i < |c.ready| ==> c.tasks[c.ready[i]].arrival < c.arrivals)
  }

  // -- Steps that leave the ready list alone --

  ghost predicate Quiet(c: Core, d: Core) {
    && InBounds(c) && c.running == d.running < |d.tasks| && |d.tasks| >= |c.tasks|
    && d.ready == c.ready && d.arrivals == c.arrivals
    && (forall t :: 0 <= t < |c.tasks| ==> RankOf(d.tasks[t]) == RankOf(c.tasks[t]))
    && (Run(d).state == Running && !d.pendsv ==> Run(c).state == Running && !c.pendsv)
  }

  lemma QuietKeeps(c: Core, d: Core)
    requires Quiet(c, d)
    ensures Top(c) ==> Top(d)
    ensures Fifo(c) ==> Fifo(d)
  {
    assert Prios(d.ready, d.tasks) == Prios(c.ready, c.tasks);
    assert Ranks(d.ready, d.tasks) == Ranks(c.ready, c.tasks);
    assert Run(d).prio == RankOf(Run(d)).key == Run(c).prio;
    assert forall i :: 0 <= i < |c.ready| ==>
      var u := d.tasks[c.ready[i]];
      u.prio == RankOf(u).key && u.arrival == RankOf(u).stamp;
  }

  lemma QuietTrans(c: Core, d: Core, e: Core)
    requires Quiet(c, d) && Quiet(d, e)
    ensures Quiet(c, e)
  {}

  // -- list_enqueue --

  lemma InsertPrios(q: seq<TaskId>, ts: seq<Task>, t: TaskId, u: Task, k: nat)
    requires InRange(q, ts) && t < |ts| && t !in q && k <= |q|
    ensures InRange(InsertAt(q, k, t), ts[t := u])
    ensures Prios(InsertAt(q, k, t), ts[t := u]) == InsertAt(Prios(q, ts), k, u.prio)
    ensures Ranks(InsertAt(q, k, t), ts[t := u]) == InsertAt(Ranks(q, ts), k, RankOf(u))
  {
    var r := InsertAt(q, k, t);
    assert forall j :: 0 <= j < |q| ==> q[j] in q;
    assert forall j :: 0 <= j < |r| ==> r[j] == (if j < k then q[j] else if j == k then t else q[j - 1]);
  }

  // The newcomer goes behind its equals.
  lemma EnqueueDescends(q: seq<TaskId>, ts: seq<Task>, t: TaskId, u: Task)
    requires InRange(q, ts) && t < |ts| && t !in q && Descending(Prios(q, ts))
    ensures var r := InsertAt(q, Slot(Prios(q, ts), u.prio), t);
            InRange(r, ts[t := u]) && Descending(Prios(r, ts[t := u]))
  {
    DescendingInsert(Prios(q, ts), u.prio);
    InsertPrios(q, ts, t, u, Slot(Prios(q, ts), u.prio));
  }

  lemma EnqueueOrdered(q: seq<TaskId>, ts: seq<Task>, t: TaskId, u: Task)
    requires InRange(q, ts) && t < |ts| && t !in q && Ordered(q, ts)
    requires forall i :: 0 <= i < |q| ==> ts[q[i]].arrival < u.arrival
    ensures var r := InsertAt(q, Slot(Prios(q, ts), u.prio), t);
            InRange(r, ts[t := u]) && Ordered(r, ts[t := u])
            && forall i :: 0 <= i < |r| ==> ts[t := u][r[i]].arrival <= u.arrival
  {
    var rs, k := Ranks(q, ts), Slot(Prios(q, ts), u.prio);
    assert KeysOf(rs) == Prios(q, ts);
    SortedInsert(rs, RankOf(u));
    InsertPrios(q, ts, t, u, k);
    var r := InsertAt(q, k, t);
    forall i | 0 <= i < |r| ensures ts[t := u][r[i]].arrival <= u.arrival {
      assert r[i] == (if i < k then q[i] else if i == k then t else q[i - 1]);
    }
  }

  lemma MakeReadyDescends(c: Core, t: TaskId)
    requires InBounds(c) && t < |c.tasks| && t !in c.ready && ReadyDescends(c)
    ensures InBounds(MakeReady(c, t)) && ReadyDescends(MakeReady(c, t))
  {
    EnqueueDescends(c.ready, c.tasks, t, c.tasks[t].(state := Ready, arrival := c.arrivals));
  }

  lemma MakeReadyFifo(c: Core, t: TaskId)
    requires Fifo(c) && t < |c.tasks| && t !in c.ready
    ensures Fifo(MakeReady(c, t))
  {
    EnqueueOrdered(c.ready, c.tasks, t, c.tasks[t].(state := Ready, arrival := c.arrivals));
  }

  lemma ScheduleKeepsOrder(c: Core, t: TaskId)
    requires Inv(c) && t < |c.tasks| && c.tasks[t].state == Initialized
    ensures Top(c) ==> Top(Schedule(c, t))
    ensures Fifo(c) ==> Fifo(Schedule(c, t))
  {
    assert t !in c.ready;
    if Top(c) { MakeReadyDescends(c, t); }
    if Fifo(c) { MakeReadyFifo(c, t); }
  }

  // -- signal_send --

  lemma ReceiveIsQuiet(c: Core, t: TaskId, u: Task)
    requires InBounds(c) && t < |c.tasks| && RankOf(u) == RankOf(c.tasks[t])
    requires t == c.running ==> u.state == c.tasks[t].state
    ensures Quiet(c, SetTask(c, t, u))
  {}

  lemma WakeKeepsTop(c: Core, t: TaskId)
    requires Wf(c) && Top(c) && t < |c.tasks| && c.tasks[t].state == Waiting
    ensures var d := MakeReady(c.(waiting := Without(c.waiting, t)), t);
      && InBounds(d) && ReadyDescends(d)
      && (Run(d).prio < d.tasks[t].prio || RunningIsTop(d))
  {
    var c1 := c.(waiting := Without(c.waiting, t));
    var d := MakeReady(c1, t);
    assert t !in c.ready;
    MakeReadyDescends(c1, t);
    if Run(d).prio >= d.tasks[t].prio && Run(d).state == Running && !d.pendsv {
      forall i | 0 <= i < |d.ready| ensures d.tasks[d.ready[i]].prio <= Run(d).prio {
        InsertAtIsExact(c.ready, Slot(Prios(c.ready, c.tasks), c.tasks[t].prio), t);
        assert d.ready[i] in d.ready;
        if d.ready[i] != t {
          assert c.ready[IndexOf(c.ready, d.ready[i])] == d.ready[i];
        }
      }
    }
  }

  lemma SendKeepsOrder(c: Core, t: TaskId, sigs: Signals)
    requires Wf(c) && t < |c.tasks|
    ensures Top(c) ==> Top(Send(c, t, sigs))
    ensures Fifo(c) ==> Fifo(Send(c, t, sigs))
  {
    var u := c.tasks[t].(sigRecvd := c.tasks[t].sigRecvd + sigs);
    var c1 := SetTask(c, t, u);
    ReceiveIsQuiet(c, t, u);
    QuietKeeps(c, c1);
    if Wakes(c, t, sigs) {
      HoldsFrame(c.ready, c.tasks, Ready, t, u);
      HoldsFrame(c.waiting, c.tasks, Waiting, t, u);
      assert t !in c.ready;
      if Top(c) { WakeKeepsTop(c1, t); }
      if Fifo(c) { MakeReadyFifo(c1.(waiting := Without(c1.waiting, t)), t); }
    }
  }

  // -- task_set_prio --

  // The new priority fits where a READY task stands: between those of its neighbours.
  ghost predicate PrioFits(c: Core, t: TaskId, prio: Prio)
    requires InBounds(c)
  {
    t in c.ready ==>
      var i := IndexOf(c.ready, t);
      && (i > 0 ==> c.tasks[c.ready[i - 1]].prio >= prio)
      && (i + 1 < |c.ready| ==> prio >= c.tasks[c.ready[i + 1]].prio)
  }

  // The same for the rank, which tells equal priorities apart by arrival.
  ghost predicate KeepsPlace(c: Core, t: TaskId, prio: Prio)
    requires t < |c.tasks| && InRange(c.ready, c.tasks)
  {
    t in c.ready ==>
      var i, u := IndexOf(c.ready, t), c.tasks[t].(prio := prio);
      && (i > 0 ==> Before(RankOf(c.tasks[c.ready[i - 1]]), RankOf(u)))
      && (i + 1 < |c.ready| ==> Before(RankOf(u), RankOf(c.tasks[c.ready[i + 1]])))
  }

  lemma PriosUpdate(q: seq<TaskId>, ts: seq<Task>, t: TaskId, u: Task)
    requires NoDup(q) && InRange(q, ts) && t < |ts|
    ensures t !in q ==> Prios(q, ts[t := u]) == Prios(q, ts) && Ranks(q, ts[t := u]) == Ranks(q, ts)
    ensures t in q ==>
      && Prios(q, ts[t := u]) == Prios(q, ts)[IndexOf(q, t) := u.prio]
      && Ranks(q, ts[t := u]) == Ranks(q, ts)[IndexOf(q, t) := RankOf(u)]
  {
    assert forall j :: 0 <= j < |q| ==> q[j] in q;
    if t in q {
      assert forall j :: 0 <= j < |q| && j != IndexOf(q, t) ==> q[j] != t;
    }
  }

  // Any set_prio leaves the running task on top or pends a switch.
  lemma SetPrioStaysTop(c: Core, t: TaskId, prio: Prio)
    requires Wf(c) && Top(c) && t < |c.tasks|
    ensures InBounds(SetPrio(c, t, prio)) && RunningIsTop(SetPrio(c, t, prio))
  {
    assert forall i :: 0 <= i < |c.ready| ==> c.ready[i] in c.ready;
  }

  // task_set_prio keeps the ready list in order, and with it everything that the
  // priority of the running task rests on, exactly when the new priority fits.
  lemma SetPrioTopExact(c: Core, t: TaskId, prio: Prio)
    requires Wf(c) && Top(c) && t < |c.tasks|
    ensures Top(SetPrio(c, t, prio)) <==> PrioFits(c, t, prio)
  {
    var d, u := SetPrio(c, t, prio), c.tasks[t].(prio := prio);
    assert d.tasks == c.tasks[t := u] && d.ready == c.ready;
    PriosUpdate(c.ready, c.tasks, t, u);
    if t in c.ready {
      DescendingUpdate(Prios(c.ready, c.tasks), IndexOf(c.ready, t), prio);
    }
    SetPrioStaysTop(c, t, prio);
  }

  // ... and the order of arrivals within a priority exactly when no neighbour's rank is
  // passed. A target that is not READY is always safe.
  lemma SetPrioFifoExact(c: Core, t: TaskId, prio: Prio)
    requires Wf(c) && Fifo(c) && t < |c.tasks|
    ensures Fifo(SetPrio(c, t, prio)) <==> KeepsPlace(c, t, prio)
    ensures c.tasks[t].state != Ready ==> KeepsPlace(c, t, prio) && PrioFits(c, t, prio)
  {
    var d, u := SetPrio(c, t, prio), c.tasks[t].(prio := prio);
    assert d.tasks == c.tasks[t := u] && d.ready == c.ready;
    PriosUpdate(c.ready, c.tasks, t, u);
    if t in c.ready {
      SortedUpdate(Ranks(c.ready, c.tasks), IndexOf(c.ready, t), RankOf(u));
    }
  }

  // -- The context switch --

  lemma TailPrios(q: seq<TaskId>, ts: seq<Task>, v: Task)
    requires NoDup(q) && InRange(q, ts) && q != []
    ensures InRange(q[1..], ts[q[0] := v])
    ensures Prios(q[1..], ts[q[0] := v]) == Prios(q, ts)[1..]
    ensures Ranks(q[1..], ts[q[0] := v]) == Ranks(q, ts)[1..]
  {}

  lemma SwitchInQueue(c: Core)
    requires Wf(c) && c.ready != []
    ensures var d := SwitchIn(c);
      && InBounds(d) && d.running == c.ready[0] && Run(d).prio == c.tasks[c.ready[0]].prio
      && Prios(d.ready, d.tasks) == Prios(c.ready, c.tasks)[1..]
      && Ranks(d.ready, d.tasks) == Ranks(c.ready, c.tasks)[1..]
  {
    var u := Run(c).(nest := c.nest);
    var ts := c.tasks[c.running := u];
    assert Prios(c.ready, ts) == Prios(c.ready, c.tasks) && Ranks(c.ready, ts) == Ranks(c.ready, c.tasks);
    TailPrios(c.ready, ts, ts[c.ready[0]].(state := Running));
  }

  // After the switch the running task has the highest priority exactly when the head
  // of the list it was taken from had.
  lemma SwitchIsTopExact(c: Core)
    requires Inv(c) && CanSwitch(c)
    ensures InBounds(PendSV(c))
    ensures RunningIsTop(PendSV(c)) <==>
      var q, ts := Requeue(c).ready, Requeue(c).tasks;
      forall i :: 0 <= i < |q| ==> ts[q[i]].prio <= ts[q[0]].prio
  {
    RequeueKeeps(c);
    var e, d := Requeue(c), PendSV(c);
    SwitchInQueue(e);
    var ps, rs := Prios(e.ready, e.tasks), Prios(d.ready, d.tasks);
    assert forall i :: 0 <= i < |rs| ==> rs[i] == ps[i + 1];
    assert forall i :: 0 < i < |ps| ==> ps[i] == rs[i - 1];
  }

  lemma RequeueDescends(c: Core)
    requires Wf(c) && ReadyDescends(c)
    ensures InBounds(Requeue(c)) && ReadyDescends(Requeue(c))
  {
    if Run(c).state == Running { MakeReadyDescends(c, c.running); }
  }

  lemma RequeueFifo(c: Core)
    requires Wf(c) && Fifo(c)
    ensures Fifo(Requeue(c))
  {
    if Run(c).state == Running { MakeReadyFifo(c, c.running); }
  }

  // With the list in order the switch restores the priority invariant, whoever ran before.
  lemma PendSVKeepsTop(c: Core)
    requires Inv(c) && CanSwitch(c) && ReadyDescends(c)
    ensures Top(PendSV(c))
  {
    RequeueKeeps(c);
    RequeueDescends(c);
    SwitchInQueue(Requeue(c));
    SwitchIsTopExact(c);
    var ps := Prios(Requeue(c).ready, Requeue(c).tasks);
    assert forall i :: 0 <= i < |ps| ==> ps[i] <= ps[0];
  }

  lemma PendSVKeepsFifo(c: Core)
    requires Inv(c) && CanSwitch(c) && Fifo(c)
    ensures Fifo(PendSV(c))
  {
    RequeueKeeps(c);
    RequeueFifo(c);
    SwitchInFifo(Requeue(c));
  }

  lemma SwitchInFifo(c: Core)
    requires Wf(c) && Fifo(c) && c.ready != []
    ensures Fifo(SwitchIn(c))
  {
    SwitchInQueue(c);
    var d, rs := SwitchIn(c), Ranks(c.ready, c.tasks);
    SortedRemove(rs, 0);
    assert RemoveAt(rs, 0) == rs[1..];
    forall i | 0 <= i < |d.ready| ensures d.tasks[d.ready[i]].arrival < d.arrivals {
      assert Ranks(d.ready, d.tasks)[i] == rs[i + 1];
    }
  }

  // A READY task raised above the running one pends a switch. That switch runs it exactly
  // when it was the head of the ready list already: task_set_prio does not move it there.
  lemma RaisedTaskRunsExact(c: Core, t: TaskId, prio: Prio)
    requires Inv(c) && Top(c) && Run(c).state == Running && t in c.ready && prio > Run(c).prio
    ensures SetPrio(c, t, prio).pendsv && Inv(SetPrio(c, t, prio)) && CanSwitch(SetPrio(c, t, prio))
    ensures PendSV(SetPrio(c, t, prio)).running == t <==> c.ready[0] == t
  {
    var d := SetPrio(c, t, prio);
    assert c.tasks[t].state == Ready;
    SetPrioKeeps(c, t, prio);
    PendSVFindsTask(d);
    var ps := Prios(d.ready, d.tasks);
    var k := Slot(ps, Run(d).prio);
    assert Requeue(d).ready == InsertAt(c.ready, k, c.running);
    if c.ready[0] == t { assert ps[0] == prio; }
  }

  // -- Why the order is needed --

  // The running task waits for nothing, which never comes, and the next one is switched in.
  ghost function WaitAway(c: Core): Core
    requires InBounds(c) && c.ready != []
  {
    SwitchIn(Kick(WaitEnter(c, {})))
  }

  lemma WaitAwayIsSwitch(c: Core)
    requires InBounds(c) && c.ready != []
    ensures var k := Kick(WaitEnter(c, {})); CanSwitch(k) && WaitAway(c) == PendSV(k)
  {}

  lemma WaitAwayQueue(c: Core)
    requires Wf(c) && Run(c).state == Running && c.ready != []
    ensures var d := WaitAway(c);
      && Wf(d) && Run(d).state == Running && !d.pendsv && Run(d).prio == c.tasks[c.ready[0]].prio
      && Prios(d.ready, d.tasks) == Prios(c.ready, c.tasks)[1..]
  {
    var k, u := Kick(WaitEnter(c, {})), Run(Kick(WaitEnter(c, {})));
    assert k.tasks == c.tasks[c.running := u] && k.ready == c.ready;
    HoldsFrame(c.ready, c.tasks, Ready, c.running, u);
    HoldsInsert(c.waiting, c.tasks, Waiting, c.running, u, |c.waiting|);
    assert InsertAt(c.waiting, |c.waiting|, c.running) == c.waiting + [c.running] == k.waiting;
    assert Prios(k.ready, k.tasks) == Prios(c.ready, c.tasks);
    SwitchInKeepsQueues(k);
    SwitchInQueue(k);
  }

  // The state after the running tasks have waited, one after another, n times.
  ghost function Drained(c: Core, n: nat): (d: Core)
    requires Wf(c) && Run(c).state == Running && n <= |c.ready|
    ensures Wf(d) && Run(d).state == Running
    ensures Prios(d.ready, d.tasks) == Prios(c.ready, c.tasks)[n..]
    ensures n > 0 ==> !d.pendsv && Run(d).prio == Prios(c.ready, c.tasks)[n - 1]
    decreases n
  {
    if n == 0 then c
    else
      WaitAwayQueue(c);
      var d := Drained(WaitAway(c), n - 1);
      assert Prios(c.ready, c.tasks)[1..][n - 1..] == Prios(c.ready, c.tasks)[n..];
      d
  }

  ghost predicate Exceeds(ps: seq<int>, n: nat)
    requires 0 < n <= |ps|
  {
    forall j :: n <= j < |ps| ==> ps[j] <= ps[n - 1]
  }

  lemma DescendingHeads(ps: seq<int>)
    ensures Descending(ps) <==> forall n :: 0 < n <= |ps| ==> Exceeds(ps, n)
  {
    if forall n :: 0 < n <= |ps| ==> Exceeds(ps, n) {
      forall i, j | 0 <= i < j < |ps| ensures ps[i] >= ps[j] {
        assert Exceeds(ps, i + 1);
      }
    }
  }

  lemma TopOfTail(d: Core, ps: seq<int>, n: nat)
    requires InBounds(d) && Run(d).state == Running && !d.pendsv && 0 < n <= |ps|
    requires Prios(d.ready, d.tasks) == ps[n..] && Run(d).prio == ps[n - 1]
    ensures RunningIsTop(d) <==> Exceeds(ps, n)
  {
    var rs := Prios(d.ready, d.tasks);
    assert forall i :: 0 <= i < |rs| ==> rs[i] == ps[n + i];
    assert forall j :: n <= j < |ps| ==> ps[j] == rs[j - n];
  }

  lemma DrainedIsTop(c: Core, n: nat)
    requires Wf(c) && Run(c).state == Running && 0 < n <= |c.ready|
    ensures RunningIsTop(Drained(c, n)) <==> Exceeds(Prios(c.ready, c.tasks), n)
  {
    TopOfTail(Drained(c, n), Prios(c.ready, c.tasks), n);
  }

  ghost predicate TopWhileWaiting(c: Core)
    requires Wf(c) && Run(c).state == Running
  {
    forall n :: 0 < n <= |c.ready| ==> RunningIsTop(Drained(c, n))
  }

  // A descending list is just what keeps the running task on top while tasks wait.
  lemma DescendsExactly(c: Core)
    requires Wf(c) && Run(c).state == Running
    ensures ReadyDescends(c) <==> TopWhileWaiting(c)
  {
    var ps := Prios(c.ready, c.tasks);
    DescendingHeads(ps);
    if ReadyDescends(c) {
      forall n | 0 < n <= |c.ready| ensures RunningIsTop(Drained(c, n)) {
        DrainedIsTop(c, n);
      }
    }
    if TopWhileWaiting(c) {
      forall n | 0 < n <= |ps| ensures Exceeds(ps, n) {
        DrainedIsTop(c, n);
      }
    }
  }

  // So a set_prio call is safe, whatever number of tasks then wait, exactly when it fits.
  lemma SetPrioSafeExactly(c: Core, t: TaskId, prio: Prio)
    requires Inv(c) && Top(c) && t < |c.tasks| && Run(c).state == Running
    ensures var d := SetPrio(c, t, prio);
      Wf(d) && Run(d).state == Running && (PrioFits(c, t, prio) <==> TopWhileWaiting(d))
  {
    SetPrioKeeps(c, t, prio);
    SetPrioDescends(c, t, prio);
    DescendsExactly(SetPrio(c, t, prio));
  }

  lemma SetPrioDescends(c: Core, t: TaskId, prio: Prio)
    requires Wf(c) && Top(c) && t < |c.tasks|
    ensures InBounds(SetPrio(c, t, prio))
    ensures ReadyDescends(SetPrio(c, t, prio)) <==> PrioFits(c, t, prio)
  {
    SetPrioTopExact(c, t, prio);
    SetPrioStaysTop(c, t, prio);
  }
}
