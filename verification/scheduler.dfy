// The scheduler core as a state: every region between disable() and enable()
// is one function on that state.
module Scheduler {
  import opened Queues

  type TaskId = nat
  // A set of signal numbers; module SignalWords relates it to the 16-bit word.
  type Signals = set<nat>

  const TASK_PRIO_MIN: Prio := -0x8000
  const TASK_PRIO_EXCLUSIVE: Prio := 0x7FFF
  const SIGF_SINGLE: Signals := {0}
  const SIGNALS_WIDTH := 16
  const QUANTUM := 4
  // Range of the unsigned counter `elapsed`; it only has to exceed QUANTUM.
  const ELAPSED_RANGE := 0x1_0000_0000
  // The task that martos_pre installs.
  const INIT: TaskId := 0

  datatype RunState = Initialized | Running | Ready | Waiting

  // Where a task stands inside signal_wait. `nestcnt` is that call's local backup
  // of id_nestcnt.
  //   Window: queued as waiting, interrupts enabled, reschedule() not yet called.
  //   Kicked: reschedule() called; the next step is disable() and the loop test.
  datatype Phase = Idle | Window(sigs: Signals, nestcnt: int) | Kicked(sigs: Signals, nestcnt: int)

  // `arrival` is a history variable: the stamp of the task's last list_enqueue.
  datatype Task = Task(prio: Prio, sigAlloc: Signals, sigWait: Signals, sigRecvd: Signals,
                       nest: int, state: RunState, phase: Phase, arrival: nat)

  datatype Core = Core(tasks: seq<Task>, running: TaskId, ready: seq<TaskId>, waiting: seq<TaskId>,
                       nest: int, elapsed: nat, pendsv: bool, arrivals: nat)

  // -- Reading the queues --

  ghost predicate InRange(q: seq<TaskId>, ts: seq<Task>) {
    forall i :: 0 <= i < |q| ==> q[i] < |ts|
  }

  function Prios(q: seq<TaskId>, ts: seq<Task>): (ps: seq<int>)
    requires InRange(q, ts)
    ensures |ps| == |q| && forall i :: 0 <= i < |q| ==> ps[i] == ts[q[i]].prio
  {
    seq(|q|, i requires 0 <= i < |q| => ts[q[i]].prio as int)
  }

  // The queue holds exactly the tasks in that state, each once.
  ghost predicate Holds(q: seq<TaskId>, ts: seq<Task>, st: RunState) {
    && NoDup(q)
    && InRange(q, ts)
    && (forall t :: 0 <= t < |ts| ==> (t in q <==> ts[t].state == st))
  }

  function RankOf(u: Task): Rank { Rank(u.prio, u.arrival) }

  function Ranks(q: seq<TaskId>, ts: seq<Task>): (rs: seq<Rank>)
    requires InRange(q, ts)
    ensures |rs| == |q| && forall i :: 0 <= i < |q| ==> rs[i] == RankOf(ts[q[i]])
  {
    seq(|q|, i requires 0 <= i < |q| => RankOf(ts[q[i]]))
  }

  // Highest priority first, then earliest arrival.
  ghost predicate Ordered(q: seq<TaskId>, ts: seq<Task>)
    requires InRange(q, ts)
  {
    Sorted(Ranks(q, ts))
  }

  // -- Well-formedness needed to apply the operations --

  ghost predicate Wf(c: Core) {
    && c.running < |c.tasks|
    && INIT < |c.tasks|
    && Holds(c.ready, c.tasks, Ready)
    && Holds(c.waiting, c.tasks, Waiting)
    && (forall t :: 0 <= t < |c.tasks| && c.tasks[t].state == Running ==> t == c.running)
    && c.tasks[c.running].state != Initialized
  }

  function Run(c: Core): Task
    requires c.running < |c.tasks|
  {
    c.tasks[c.running]
  }

  function SetTask(c: Core, t: TaskId, u: Task): Core
    requires t < |c.tasks|
  {
    c.(tasks := c.tasks[t := u])
  }

  // -- Operations --

  // state = TASK_READY followed by list_enqueue on the ready list.
  function MakeReady(c: Core, t: TaskId): Core
    requires t < |c.tasks| && InRange(c.ready, c.tasks)
  {
    c.(tasks := c.tasks[t := c.tasks[t].(state := Ready, arrival := c.arrivals)],
       ready := InsertAt(c.ready, Slot(Prios(c.ready, c.tasks), c.tasks[t].prio), t),
       arrivals := c.arrivals + 1)
  }

  function NewTask(prio: Prio): Task {
    Task(prio, SIGF_SINGLE, {}, {}, -1, Initialized, Idle, 0)
  }

  // What martos_pre leaves: the init task running at the exclusive priority.
  function BootCore(): Core {
    Core([NewTask(TASK_PRIO_EXCLUSIVE).(state := Running)], INIT, [], [], -1, QUANTUM, false, 0)
  }

  function Create(c: Core, prio: Prio): Core {
    c.(tasks := c.tasks + [NewTask(prio)])
  }

  // enable(); reschedule(); at the end are one step.
  function Schedule(c: Core, t: TaskId): Core
    requires t < |c.tasks| && InRange(c.ready, c.tasks)
  {
    MakeReady(c, t).(pendsv := true)
  }

  function SetPrio(c: Core, t: TaskId, prio: Prio): Core
    requires t < |c.tasks| && c.running < |c.tasks|
  {
    var c1 := SetTask(c, t, c.tasks[t].(prio := prio));
    if t == c1.running || (c1.tasks[t].state == Ready && Run(c1).prio < prio) then c1.(pendsv := true) else c1
  }

  function Send(c: Core, t: TaskId, sigs: Signals): (r: Core)
    requires t < |c.tasks| && c.running < |c.tasks| && InRange(c.ready, c.tasks)
    ensures |r.tasks| == |c.tasks| && r.running == c.running && r.nest == c.nest && InRange(r.ready, r.tasks)
  {
    var c1 := SetTask(c, t, c.tasks[t].(sigRecvd := c.tasks[t].sigRecvd + sigs));
    if c.tasks[t].state == Waiting && sigs * c.tasks[t].sigWait != {} then
      var c2 := MakeReady(c1.(waiting := Without(c1.waiting, t)), t);
      if Run(c2).prio < c2.tasks[t].prio then c2.(pendsv := true) else c2
    else c1
  }

  // The loop head of signal_wait with id_nestcnt == n: consume and return,
  // or queue the running task as waiting and open the window.
  function WaitTest(c: Core, sigs: Signals, n: int): Core
    requires c.running < |c.tasks|
  {
    var u := Run(c);
    if sigs * u.sigRecvd != {} then
      SetTask(c, c.running, u.(sigRecvd := u.sigRecvd - sigs * u.sigRecvd, phase := Idle)).(nest := n - 1)
    else
      SetTask(c, c.running, u.(state := Waiting, phase := Window(sigs, n)))
        .(waiting := c.waiting + [c.running], nest := -1)
  }

  function WaitEnter(c: Core, sigs: Signals): Core
    requires c.running < |c.tasks|
  {
    WaitTest(SetTask(c, c.running, Run(c).(sigWait := sigs)), sigs, c.nest + 1)
  }

  function Kick(c: Core): Core
    requires c.running < |c.tasks| && Run(c).phase.Window?
  {
    var u := Run(c);
    SetTask(c, c.running, u.(phase := Kicked(u.phase.sigs, u.phase.nestcnt))).(pendsv := true)
  }

  function Resume(c: Core): Core
    requires c.running < |c.tasks| && Run(c).phase.Kicked?
  {
    WaitTest(c, Run(c).phase.sigs, Run(c).phase.nestcnt)
  }

  // The first half of the switch: a task that is still RUNNING goes back to the ready list.
  function Requeue(c: Core): Core
    requires c.running < |c.tasks| && InRange(c.ready, c.tasks)
  {
    if Run(c).state == Running then MakeReady(c, c.running) else c
  }

  function SwitchIn(c: Core): Core
    requires c.running < |c.tasks| && InRange(c.ready, c.tasks) && c.ready != []
  {
    var c1 := SetTask(c, c.running, Run(c).(nest := c.nest));
    var head := c.ready[0];
    SetTask(c1, head, c1.tasks[head].(state := Running))
      .(ready := c.ready[1..], running := head, nest := c1.tasks[head].nest, elapsed := QUANTUM, pendsv := false)
  }

  ghost predicate CanSwitch(c: Core) {
    && c.running < |c.tasks|
    && InRange(c.ready, c.tasks)
    && InRange(Requeue(c).ready, Requeue(c).tasks)
    && Requeue(c).ready != []
  }

  ghost function PendSV(c: Core): Core
    requires CanSwitch(c)
  {
    SwitchIn(Requeue(c))
  }

  function SysTick(c: Core): Core {
    var e := (c.elapsed - 1) % ELAPSED_RANGE;
    c.(elapsed := e, pendsv := c.pendsv || e == 0)
  }

  // -- Signal bits --

  // The highest free signal numbered n or less, -1 when there is none.
  function FreeBit(alloc: Signals, n: int): (r: int)
    requires -1 <= n < SIGNALS_WIDTH
    ensures -1 <= r <= n
    ensures r >= 0 ==> r !in alloc
    ensures forall j :: r < j <= n ==> j in alloc
  {
    if n < 0 || n !in alloc then n else FreeBit(alloc, n - 1)
  }

  // signal_allocate's result and the last bit it tried, which it clears even when it fails.
  function Choose(alloc: Signals, request: int): (r: (int, Signals))
    requires -1 <= request < SIGNALS_WIDTH
  {
    if request != -1 then (if request in alloc then -1 else request, {request})
    else
      var n := FreeBit(alloc, SIGNALS_WIDTH - 1);
      (n, {if n >= 0 then n else 0})
  }

  function Allocate(c: Core, request: int): Core
    requires c.running < |c.tasks| && -1 <= request < SIGNALS_WIDTH
  {
    var u := Run(c);
    var target := Choose(u.sigAlloc, request).1;
    SetTask(c, c.running, u.(sigAlloc := u.sigAlloc + target, sigWait := u.sigWait - target,
                             sigRecvd := u.sigRecvd - target))
  }

  function Free(c: Core, sigs: Signals): Core
    requires c.running < |c.tasks|
  {
    SetTask(c, c.running, Run(c).(sigAlloc := Run(c).sigAlloc - sigs))
  }
}
