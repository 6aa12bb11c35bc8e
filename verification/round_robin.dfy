// Tasks of equal top priority share the processor in equal turns.
module RoundRobin {
  import opened Queues
  import opened Scheduler
  import opened SchedulerInv
  import opened SchedulerOrder
  import opened Machine
  import opened MachineInv
  import opened MachineRuns

  // The number of ready tasks that share the running task's priority.
  ghost function Peers(c: Core): nat
    requires InBounds(c)
    ensures Peers(c) <= |c.ready|
  {
    Slot(Prios(c.ready, c.tasks), Run(c).prio)
  }

  // The running task and its peers, in the order of their turns.
  ghost function Cycle(c: Core): seq<TaskId>
    requires InBounds(c)
  {
    [c.running] + c.ready[..Peers(c)]
  }

  ghost function Lower(c: Core): seq<TaskId>
    requires InBounds(c)
  {
    c.ready[Peers(c)..]
  }

  // A proof names this to unfold Settled and Expires; elsewhere they stay folded.
  ghost predicate OpenSettled(b: bool) { true }

  // A task is running at base level and no switch is pending.
  ghost predicate AtRest(c: Core) {
    Inv(c) && Top(c) && c.nest == -1 && Run(c).state == Running && !c.pendsv
  }

  ghost predicate Settled(c: Core) {
    InBounds(c) && forall b :: OpenSettled(b) ==> AtRest(c)
  }

  function Ticked(c: Core, n: nat): Core
    decreases n
  {
    if n == 0 then c else Ticked(SysTick(c), n - 1)
  }

  // The quantum runs out and the pended switch is taken.
  ghost function Expire(c: Core): Core
    requires CanSwitch(Ticked(c, c.elapsed))
  {
    PendSV(Ticked(c, c.elapsed))
  }

  ghost predicate Expires(c: Core, d: Core) {
    forall b :: OpenSettled(b) ==> CanSwitch(Ticked(c, c.elapsed)) && d == Expire(c)
  }

  // A run of quantum expiries and nothing else, from a settled state.
  ghost predicate ExpiryRun(cs: seq<Core>) {
    cs != [] && Settled(cs[0]) && forall i :: 0 < i < |cs| ==> Expires(cs[i - 1], cs[i])
  }

  lemma {:induction false} TicksCountDown(c: Core, n: nat)
    requires !c.pendsv && 1 <= c.elapsed <= QUANTUM && n <= c.elapsed
    ensures Ticked(c, n) == c.(elapsed := c.elapsed - n, pendsv := n == c.elapsed)
    decreases n
  {
    if 0 < n {
      if c.elapsed > 1 { TicksCountDown(SysTick(c), n - 1); }
    }
  }

  lemma PeersSplit(c: Core, i: nat)
    requires InBounds(c) && ReadyDescends(c) && i < |c.ready|
    ensures i < Peers(c) <==> c.tasks[c.ready[i]].prio >= Run(c).prio
  {
    DescendingSplits(Prios(c.ready, c.tasks), Run(c).prio, i);
  }

  // All tasks of the cycle have the running task's priority, all others a lower one.
  lemma CycleIsTop(c: Core)
    requires InBounds(c) && ReadyDescends(c)
    requires forall i :: 0 <= i < |c.ready| ==> c.tasks[c.ready[i]].prio <= Run(c).prio
    ensures TopCycle(c, Cycle(c), Lower(c), Run(c).prio)
  {
    var cycle, lower := Cycle(c), Lower(c);
    forall i | 0 <= i < |cycle| ensures cycle[i] < |c.tasks| && c.tasks[cycle[i]].prio == Run(c).prio {
      if i > 0 {
        assert cycle[i] == c.ready[i - 1];
        PeersSplit(c, i - 1);
      }
    }
    forall i | 0 <= i < |lower| ensures lower[i] < |c.tasks| && c.tasks[lower[i]].prio < Run(c).prio {
      assert lower[i] == c.ready[Peers(c) + i];
      PeersSplit(c, Peers(c) + i);
    }
  }

  lemma CycleIsDistinct(c: Core)
    requires InBounds(c) && NoDup(c.ready) && c.running !in c.ready
    ensures NoDup(Cycle(c))
  {
    assert forall i :: 0 <= i < |c.ready| ==> c.ready[i] in c.ready;
  }

  function Rotate(s: seq<TaskId>): seq<TaskId>
    requires s != []
  {
    s[1..] + [s[0]]
  }

  lemma SwitchQueue(c: Core)
    requires Wf(c) && Run(c).state == Running
    ensures CanSwitch(c)
    ensures Peers(c) == 0 ==> PendSV(c).ready == c.ready && PendSV(c).running == c.running
    ensures Peers(c) > 0 ==>
      PendSV(c).running == c.ready[0] && PendSV(c).ready == c.ready[1..Peers(c)] + [c.running] + Lower(c)
  {
    var k := Peers(c);
    var r := Requeue(c).ready;
    assert r == c.ready[..k] + [c.running] + c.ready[k..];
    forall i | 0 <= i < |r| ensures r[i] < |Requeue(c).tasks| {}
    if k > 0 {
      assert r[1..] == c.ready[1..k] + [c.running] + c.ready[k..];
    } else {
      assert r[1..] == c.ready;
    }
  }

  // A slot is determined by its two sides.
  lemma SlotIs(keys: seq<int>, k: int, n: nat)
    requires n <= |keys| && (forall i :: 0 <= i < n ==> keys[i] >= k) && (n < |keys| ==> keys[n] < k)
    ensures Slot(keys, k) == n
  {}

  lemma PeersIs(c: Core, k: nat)
    requires InBounds(c) && k <= |c.ready|
    requires forall i :: 0 <= i < k ==> c.tasks[c.ready[i]].prio == Run(c).prio
    requires k < |c.ready| ==> c.tasks[c.ready[k]].prio < Run(c).prio
    ensures Peers(c) == k
  {
    SlotIs(Prios(c.ready, c.tasks), Run(c).prio, k);
  }

  // All the tasks of the cycle have one priority, and the next ready task a lower one.
  ghost predicate TopCycle(c: Core, cycle: seq<TaskId>, lower: seq<TaskId>, prio: Prio) {
    && (forall i :: 0 <= i < |cycle| ==> cycle[i] < |c.tasks| && c.tasks[cycle[i]].prio == prio)
    && (forall i :: 0 <= i < |lower| ==> lower[i] < |c.tasks| && c.tasks[lower[i]].prio < prio)
  }

  lemma CycleIs(c: Core, cycle: seq<TaskId>, lower: seq<TaskId>, prio: Prio)
    requires InBounds(c) && cycle != [] && TopCycle(c, cycle, lower, prio)
    requires c.running == cycle[0] && c.ready == cycle[1..] + lower
    ensures Cycle(c) == cycle && Lower(c) == lower
  {
    var k := |cycle| - 1;
    forall i | 0 <= i < k ensures c.tasks[c.ready[i]].prio == prio {
      assert c.ready[i] == cycle[i + 1];
    }
    assert k < |c.ready| ==> c.ready[k] == lower[0];
    PeersIs(c, k);
  }

  // One expiry moves the cycle on by one place and leaves the lower tasks as they are.
  lemma SwitchRotates(c: Core)
    requires Wf(c) && Top(c) && Run(c).state == Running && !c.pendsv
    requires CanSwitch(c) && InBounds(PendSV(c))
    ensures Cycle(PendSV(c)) == Rotate(Cycle(c)) && Lower(PendSV(c)) == Lower(c)
  {
    CycleIsTop(c);
    SwitchQueue(c);
    SwitchPrios(c);
    Rotated(c, PendSV(c));
  }

  lemma Rotated(c: Core, d: Core)
    requires InBounds(c) && InBounds(d) && TopCycle(c, Cycle(c), Lower(c), Run(c).prio)
    requires |d.tasks| == |c.tasks| && forall t :: 0 <= t < |c.tasks| ==> d.tasks[t].prio == c.tasks[t].prio
    requires Peers(c) == 0 ==> d.ready == c.ready && d.running == c.running
    requires Peers(c) > 0 ==> d.running == c.ready[0] && d.ready == c.ready[1..Peers(c)] + [c.running] + Lower(c)
    ensures Cycle(d) == Rotate(Cycle(c)) && Lower(d) == Lower(c)
  {
    var cycle := Rotate(Cycle(c));
    forall i | 0 <= i < |cycle| ensures cycle[i] in Cycle(c) {
      assert cycle[i] == Cycle(c)[if i + 1 < |cycle| then i + 1 else 0];
    }
    if Peers(c) == 0 {
      assert cycle == [c.running];
    } else {
      assert cycle == c.ready[..Peers(c)] + [c.running];
      assert cycle[1..] == c.ready[1..Peers(c)] + [c.running];
    }
    CycleIs(d, cycle, Lower(c), Run(c).prio);
  }

  lemma SwitchPrios(c: Core)
    requires CanSwitch(c)
    ensures |PendSV(c).tasks| == |c.tasks|
    ensures forall t :: 0 <= t < |c.tasks| ==> PendSV(c).tasks[t].prio == c.tasks[t].prio
  {}

  // An expiry from a settled state: the switch, a full new quantum, settled again.
  lemma ExpiryRotates(c: Core, d: Core)
    requires Settled(c) && Expires(c, d)
    ensures Settled(d) && Cycle(c) != [] && Cycle(d) == Rotate(Cycle(c)) && Lower(d) == Lower(c)
    ensures d.elapsed == QUANTUM
  {
    assert OpenSettled(true);
    TicksCountDown(c, c.elapsed);
    ExpireIsSwitch(c);
    SwitchRotates(c);
  }

  lemma ExpireIsSwitch(c: Core)
    requires AtRest(c)
    ensures var c1 := c.(elapsed := 0, pendsv := true);
      CanSwitch(c1) && CanSwitch(c) && PendSV(c1) == PendSV(c) && AtRest(PendSV(c)) && PendSV(c).elapsed == QUANTUM
  {
    var c1 := c.(elapsed := 0, pendsv := true);
    ExpiredInv(c);
    PendSVKeeps(c1);
    PendSVFindsTask(c);
    PendSVFindsTask(c1);
    PendSVKeepsTop(c1);
    assert PendSV(c1) == PendSV(c);
  }

  lemma ExpiredInv(c: Core)
    requires Inv(c)
    ensures Inv(c.(elapsed := 0, pendsv := true))
  {}

  function AtTurn(s: seq<TaskId>, n: nat): TaskId
    requires s != []
    decreases n
  {
    if n == 0 then s[0] else AtTurn(Rotate(s), n - 1)
  }

  // Who runs at each turn; meanwhile the tasks of lower priority keep their order.
  lemma {:induction false} RunTurns(cs: seq<Core>, n: nat)
    requires ExpiryRun(cs) && n < |cs|
    ensures Settled(cs[n]) && cs[n].running == AtTurn(Cycle(cs[0]), n) && Lower(cs[n]) == Lower(cs[0])
    ensures n > 0 ==> cs[n].elapsed == QUANTUM
    decreases n
  {
    if n > 0 {
      ExpiryRotates(cs[0], cs[1]);
      RunTurns(cs[1..], n - 1);
    }
  }

  // After n turns, the first n places of the cycle have moved to its end.
  lemma {:induction false} TurnWithin(s: seq<TaskId>, n: nat)
    requires n < |s|
    ensures AtTurn(s, n) == s[n]
    decreases n
  {
    if n > 0 { TurnWithin(Rotate(s), n - 1); }
  }

  lemma {:induction false} TurnAround(s: seq<TaskId>, done: seq<TaskId>, n: nat)
    requires s + done != []
    ensures AtTurn(s + done, |s| + n) == AtTurn(done + s, n)
    decreases |s|
  {
    if s == [] {
      assert s + done == done == done + s;
    } else {
      assert Rotate(s + done) == s[1..] + (done + [s[0]]);
      TurnAround(s[1..], done + [s[0]], n);
      assert (done + [s[0]]) + s[1..] == done + s;
    }
  }

  lemma TurnsRepeat(s: seq<TaskId>, n: nat)
    requires s != []
    ensures AtTurn(s, n + |s|) == AtTurn(s, n)
    ensures n < |s| ==> AtTurn(s, n) == s[n]
  {
    TurnAround(s, [], n);
    assert s + [] == s == [] + s;
    if n < |s| { TurnWithin(s, n); }
  }

  // Round robin: with only quantum expiries the k tasks of the top priority run in a
  // fixed order, each exactly once in every k consecutive turns (the task of turn n is
  // that of turn n + k, and the tasks of turns 0 to k - 1 are those of the cycle, all
  // different).
  lemma EqualTurns(cs: seq<Core>, n: nat)
    requires ExpiryRun(cs) && n < |cs|
    ensures var cycle := Cycle(cs[0]);
      && NoDup(cycle) && cycle[0] == cs[0].running
      && (n < |cycle| ==> cs[n].running == cycle[n])
      && (n + |cycle| < |cs| ==> cs[n + |cycle|].running == cs[n].running)
    ensures Settled(cs[n]) && Lower(cs[n]) == Lower(cs[0]) && (n > 0 ==> cs[n].elapsed == QUANTUM)
  {
    SettledCycle(cs[0]);
    TurnsOf(cs, n, Cycle(cs[0]));
    RunTurns(cs, n);
  }

  lemma TurnsOf(cs: seq<Core>, n: nat, cycle: seq<TaskId>)
    requires ExpiryRun(cs) && n < |cs| && cycle == Cycle(cs[0])
    ensures n < |cycle| ==> cs[n].running == cycle[n]
    ensures n + |cycle| < |cs| ==> cs[n + |cycle|].running == cs[n].running
  {
    TurnsRepeat(cycle, n);
    RunTurns(cs, n);
    if n + |cycle| < |cs| { RunTurns(cs, n + |cycle|); }
  }

  lemma SettledCycle(c: Core)
    requires Settled(c)
    ensures NoDup(Cycle(c))
  {
    assert OpenSettled(true);
    CycleIsDistinct(c);
  }

  // The cycle consists of the running task and every ready task of its priority.
  lemma CycleMembers(c: Core, t: TaskId)
    requires Settled(c) && t < |c.tasks|
    ensures t in Cycle(c) <==>
      c.tasks[t].prio == Run(c).prio && (c.tasks[t].state == Running || c.tasks[t].state == Ready)
  {
    assert OpenSettled(true);
    CycleIsTop(c);
    assert c.ready == c.ready[..Peers(c)] + Lower(c);
  }

  lemma LeadsFirst(s: State, a: Action, rest: seq<Action>, s': State)
    requires Linked(s) && Enabled(s, a) && Private(s, a) && Leads(Apply(s, a), rest, s')
    ensures Leads(s, [a] + rest, s')
  {
    assert ([a] + rest)[1..] == rest;
  }

  lemma TickIsAction(s: State)
    requires KInv(s) && s.core.nest == -1
    ensures Linked(s) && Enabled(s, SysTickIrq) && Private(s, SysTickIrq)
    ensures Apply(s, SysTickIrq) == s.(core := SysTick(s.core)) && KInv(Apply(s, SysTickIrq))
  {
    KInvLinked(s);
    assert forall t, own :: Sent(s, SysTickIrq, t, own) == {};
    ActionKeeps(s, SysTickIrq);
  }

  lemma SwitchIsAction(s: State)
    requires KInv(s) && s.core.nest == -1 && s.core.pendsv
    ensures Linked(s) && Leads(s, [PendSVIrq], s.(core := PendSV(s.core)))
  {
    KInvLinked(s);
    assert forall t, own :: Sent(s, PendSVIrq, t, own) == {};
    LeadsFirst(s, PendSVIrq, [], s.(core := PendSV(s.core)));
  }

  function Quantum(n: nat): seq<Action> {
    if n == 0 then [PendSVIrq] else [SysTickIrq] + Quantum(n - 1)
  }

  ghost predicate Counting(s: State, n: nat) {
    && KInv(s) && s.core.nest == -1
    && (if n == 0 then s.core.pendsv else !s.core.pendsv && n == s.core.elapsed <= QUANTUM)
  }

  lemma TickCounts(s: State, n: nat)
    requires Counting(s, n) && n > 0
    ensures Counting(s.(core := SysTick(s.core)), n - 1)
  {
    TickIsAction(s);
  }

  lemma {:induction false} TicksThenSwitch(s: State, n: nat)
    requires Counting(s, n) && CanSwitch(Ticked(s.core, n))
    ensures Leads(s, Quantum(n), s.(core := PendSV(Ticked(s.core, n))))
    decreases n
  {
    if n == 0 {
      SwitchIsAction(s);
    } else {
      TickIsAction(s);
      TickCounts(s, n);
      TicksThenSwitch(s.(core := SysTick(s.core)), n - 1);
      LeadsFirst(s, SysTickIrq, Quantum(n - 1), s.(core := PendSV(Ticked(s.core, n))));
    }
  }

  // An expiry is a run of the kernel: `elapsed` ticks of SysTick, then PendSV.
  lemma ExpireIsRun(s: State)
    requires KInv(s) && AtRest(s.core)
    ensures CanSwitch(Ticked(s.core, s.core.elapsed)) && Expires(s.core, Expire(s.core))
    ensures Leads(s, Quantum(s.core.elapsed), s.(core := Expire(s.core)))
  {
    TicksCountDown(s.core, s.core.elapsed);
    ExpireIsSwitch(s.core);
    TicksThenSwitch(s, s.core.elapsed);
  }
}
