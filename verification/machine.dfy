// The whole kernel as one state machine. An action is one region that no other
// party can interrupt: a task-level region between disable() and enable(), or an
// interrupt handler. Writes to the running task's own words that nobody else reads or
// writes meanwhile belong to the region next to them (see Allocations.MarkTaken). A run
// is any sequence of enabled actions.
module Machine {
  import opened Queues
  import opened Scheduler

  type TimerId = nat
  type SemId = nat
  type PortId = nat

  // An unsigned 32-bit count; sums wrap around.
  const TICKS := 0x1_0000_0000
  type Ticks = n: nat | n < TICKS

  function AddTicks(a: Ticks, b: Ticks): Ticks {
    if a + b < TICKS then a + b else a + b - TICKS
  }

  // A time since the clock started: how often it wrapped around, and what it shows.
  datatype Moment = Moment(epoch: nat, clock: Ticks)

  function Time(m: Moment): nat { m.epoch * TICKS + m.clock }

  datatype Option<T> = None | Some(value: T)

  datatype TimerOp = NoOp | Delay | Alarm
  datatype TimerStatus = Invalid | Idling | Added | Done | Aborted

  // `local`: a timer on the stack of timer_delay. History: `stamp`, `added`, `left`
  // (its last insertion's stamp, how often it entered and left the queue), `aborted`
  // (timer_abort took it out of the queue and it was neither added nor freed since).
  datatype Timer = Timer(task: Option<TaskId>, signal: Signals, tick: Ticks, delay: Ticks,
                         op: TimerOp, status: TimerStatus, local: bool,
                         stamp: nat, added: nat, left: nat, aborted: bool)

  datatype Request = Request(waiter: TaskId, signal: Signals)

  // History: `initial` count, immediate `grants`, all `queued` and all `woken`
  // requests, the number of `signals` and of those `lost` at a count of -1.
  datatype Semaphore = Semaphore(count: int, queue: seq<Request>,
                                 initial: int, grants: nat, queued: seq<Request>, woken: seq<Request>,
                                 signals: nat, lost: nat)

  datatype Message = Message(id: nat, replyPort: Option<PortId>)
  datatype PortAction = Signal | Ignore

  // History: the `owner` that initialized the port, all messages `sent` and `taken`.
  datatype Port = Port(task: Option<TaskId>, signal: Signals, action: PortAction, queue: seq<Message>,
                       owner: TaskId, sent: seq<Message>, taken: seq<Message>)

  // What a task's last multi-step call returned.
  datatype Result = NoResult | Received(sigs: Signals) | Peeked(msg: Message)
    | Delayed(start: Moment, ticks: Ticks, stamped: Moment, checked: Moment)

  // The places between two regions of timer_add and timer_delay.
  datatype Stage = Stamping | Checking | Inserting | Testing | Asking | Blocking | Releasing

  // The kernel call a task is in. `entry` is a history variable: id_nestcnt at the
  // call. For timer_delay, `start`, `stamped` and `checked` are the times of the call, of
  // its time stamp and of the test of that stamp.
  datatype Call =
    | User(last: Result)
    | InWait(entry: int)
    | InSem(sem: SemId, entry: int, asking: bool)
    | InPort(port: PortId, entry: int)
    | InTimer(timer: TimerId, stage: Stage, entry: int, delaying: bool, start: Moment, ticks: Ticks,
              stamped: Moment, checked: Moment)

  // `epoch` is history: how often the clock wrapped around.
  datatype State = State(core: Core, calls: seq<Call>, clock: Ticks,
                         timers: seq<Timer>, tq: seq<TimerId>, stamps: nat,
                         sems: seq<Semaphore>, ports: seq<Port>, epoch: nat)

  // `irq` tells an interrupt handler's call from the running task's.
  datatype Action =
    | Disable | Enable
    | TaskInit(prio: Prio) | TaskSchedule(task: TaskId) | TaskSetPrio(task: TaskId, prio: Prio)
    | SignalAllocate(request: int) | SignalFree(sigs: Signals) | SignalWait(sigs: Signals)
    | SignalSend(irq: bool, task: TaskId, sigs: Signals)
    | SemInit(count: int) | SemAddRequest(sem: SemId, req: Request) | SemWait(sem: SemId)
    | SemSignal(irq: bool, sem: SemId)
    | PortInit | PortConfigure(port: PortId, owner: Option<TaskId>, action: PortAction)
    | PortWait(port: PortId) | PortGet(port: PortId)
    | PortSend(irq: bool, port: PortId, msg: Message)
    | TimerAllocate | TimerAdd(timer: TimerId, op: TimerOp, value: Ticks)
    | TimerAbort(timer: TimerId) | TimerFree(timer: TimerId) | TimerDelay(ticks: Ticks)
    | Proceed              // the running task goes on inside a kernel call
    | Tim2 | SysTickIrq | PendSVIrq

  // -- Helpers --

  predicate TaskAction(a: Action) {
    || a.Disable? || a.Enable? || a.TaskInit? || a.TaskSchedule? || a.TaskSetPrio?
    || a.SignalAllocate? || a.SignalFree? || a.SignalWait? || a.SignalSend?
  }

  predicate SemAction(a: Action) {
    a.SemInit? || a.SemAddRequest? || a.SemWait? || a.SemSignal?
  }

  predicate MsgAction(a: Action) {
    a.PortInit? || a.PortConfigure? || a.PortWait? || a.PortGet? || a.PortSend?
  }

  predicate TimerAction(a: Action) {
    a.TimerAllocate? || a.TimerAdd? || a.TimerAbort? || a.TimerFree? || a.TimerDelay?
  }

  function Me(s: State): TaskId { s.core.running }

  function Now(s: State): Moment { Moment(s.epoch, s.clock) }

  ghost predicate Sane(s: State) {
    && s.core.running < |s.core.tasks| == |s.calls|
    && InRange(s.core.ready, s.core.tasks)
    && (forall i :: 0 <= i < |s.tq| ==> s.tq[i] < |s.timers|)
  }

  function SetCall(s: State, call: Call): State
    requires Me(s) < |s.calls|
  {
    s.(calls := s.calls[Me(s) := call])
  }

  function Owner(tm: Timer): TaskId {
    if tm.task.Some? then tm.task.value else INIT
  }

  // -- Semaphores --

  function NewSem(count: int): Semaphore {
    Semaphore(count, [], count, 0, [], [], 0, 0)
  }

  function AddRequest(m: Semaphore, req: Request): Semaphore {
    var m1 := m.(count := m.count - 1);
    if m1.count < 0 then m1.(queue := m.queue + [req], queued := m.queued + [req])
    else m1.(grants := m.grants + 1)
  }

  // The request that sem_signal takes from the queue, if any.
  function Dequeued(m: Semaphore): Option<Request> {
    if m.count + 1 < 0 && m.queue != [] then Some(m.queue[0]) else None
  }

  function SignalSem(m: Semaphore): Semaphore {
    var m1 := m.(count := m.count + 1, signals := m.signals + 1);
    match Dequeued(m)
    case Some(req) => m1.(queue := m.queue[1..], woken := m.woken + [req])
    case None => m1.(lost := if m.count == -1 then m.lost + 1 else m.lost)
  }

  // -- Message ports --

  function PutMessage(p: Port, msg: Message): Port {
    p.(queue := p.queue + [msg], sent := p.sent + [msg])
  }

  function GetMessage(p: Port): Port {
    if p.queue == [] then p else p.(queue := p.queue[1..], taken := p.taken + [p.queue[0]])
  }

  // Whether a message sent to the port signals a task.
  predicate Signals?(p: Port) {
    p.task.Some? && p.action == Signal
  }

  // The loop of msgport_wait, entered inside its disable().
  ghost function PortLoop(s: State, p: PortId): (r: State)
    requires Sane(s) && p < |s.ports|
    decreases s.ports[p].signal * Run(s.core).sigRecvd != {}
  {
    if s.ports[p].queue != [] then
      SetCall(s.(core := s.core.(nest := s.core.nest - 1)), User(Peeked(s.ports[p].queue[0])))
    else
      var s1 := s.(core := WaitEnter(s.core, s.ports[p].signal));
      if s.ports[p].signal * Run(s.core).sigRecvd != {} then PortLoop(s1, p) else s1
  }

  // -- signal_wait, alone or inside another call --

  // Return from a wait that consumed `got`.
  ghost function AfterWait(s: State, got: Signals): (r: State)
    requires Sane(s)
    requires s.calls[Me(s)].InPort? ==> s.calls[Me(s)].port < |s.ports|
  {
    match s.calls[Me(s)]
    case User(_) => s
    case InWait(_) => SetCall(s, User(Received(got)))
    case InSem(_, _, _) => SetCall(s, User(NoResult))
    case InPort(p, _) => PortLoop(s, p)
    case InTimer(_, _, _, _, _, _, _, _) => SetCall(s, s.calls[Me(s)].(stage := Releasing))
  }

  ghost function WaitCall(s: State, sigs: Signals, call: Call): State
    requires Sane(s) && (call.InPort? ==> call.port < |s.ports|)
  {
    var got := sigs * Run(s.core).sigRecvd;
    var s1 := SetCall(s.(core := WaitEnter(s.core, sigs)), call);
    if got != {} then AfterWait(s1, got) else s1
  }

  // -- Timers --

  function NewTimer(task: TaskId, signal: Signals, local: bool): Timer {
    Timer(Some(task), signal, 0, 0, NoOp, Idling, local, 0, 0, 0, false)
  }

  // Queues put the greatest key first, so an early tick is a great key.
  function Key(tm: Timer): int { 0 - tm.tick }

  function Keys(tq: seq<TimerId>, timers: seq<Timer>): (ks: seq<int>)
    requires forall i :: 0 <= i < |tq| ==> tq[i] < |timers|
    ensures |ks| == |tq| && forall i :: 0 <= i < |tq| ==> ks[i] == Key(timers[tq[i]])
  {
    seq(|tq|, i requires 0 <= i < |tq| => Key(timers[tq[i]]))
  }

  function InsertTimer(s: State, tm: TimerId): State
    requires tm < |s.timers| && forall i :: 0 <= i < |s.tq| ==> s.tq[i] < |s.timers|
  {
    var t := s.timers[tm];
    s.(timers := s.timers[tm := t.(status := Added, stamp := s.stamps, added := t.added + 1, aborted := false)],
       tq := InsertAt(s.tq, Slot(Keys(s.tq, s.timers), Key(t)), tm), stamps := s.stamps + 1)
  }

  // Taken out of the queue by timer_abort, which leaves the status.
  function Removed(tm: Timer): Timer {
    tm.(left := tm.left + 1, aborted := true)
  }

  function Expired(tm: Timer): Timer {
    tm.(status := Done, left := tm.left + 1)
  }

  ghost predicate Pollable(c: Core, timers: seq<Timer>, tq: seq<TimerId>) {
    && c.running < |c.tasks| && InRange(c.ready, c.tasks)
    && (forall i :: 0 <= i < |tq| ==> tq[i] < |timers|)
    && (forall i :: 0 <= i < |timers| ==> Owner(timers[i]) < |c.tasks|)
  }

  // signal_send to the owner of the timer at the head of the queue.
  ghost function SendHead(c: Core, timers: seq<Timer>, tq: seq<TimerId>): (r: Core)
    requires Pollable(c, timers, tq) && tq != []
    ensures |r.tasks| == |c.tasks| && r.running == c.running && r.nest == c.nest
    ensures Pollable(r, timers[tq[0] := Expired(timers[tq[0]])], tq[1..])
  {
    Send(c, Owner(timers[tq[0]]), timers[tq[0]].signal)
  }

  // timer_poll: the queue's head is removed and signalled while its tick is due.
  ghost function Poll(c: Core, timers: seq<Timer>, tq: seq<TimerId>, now: Ticks): (r: (Core, seq<Timer>, seq<TimerId>))
    requires Pollable(c, timers, tq)
    ensures |r.0.tasks| == |c.tasks| && r.0.running == c.running && r.0.nest == c.nest && |r.1| == |timers|
    decreases |tq|
  {
    if tq == [] || now < timers[tq[0]].tick then (c, timers, tq)
    else Poll(SendHead(c, timers, tq), timers[tq[0] := Expired(timers[tq[0]])], tq[1..], now)
  }

  // One region of timer_add or timer_delay.
  ghost function TimerStep(s: State): State
    requires Sane(s) && s.calls[Me(s)].InTimer? && s.calls[Me(s)].timer < |s.timers|
  {
    var call := s.calls[Me(s)];
    var t := s.timers[call.timer];
    var leave := if call.delaying then call.(stage := Testing) else User(NoResult);
    var tested := if call.delaying then call.(stage := Testing, checked := Now(s)) else User(NoResult);
    match call.stage
    case Stamping =>
      SetCall(
        s.(timers := s.timers[call.timer := t.(tick := AddTicks(s.clock, t.delay))]),
        call.(stage := Checking, stamped := Now(s)))
    case Checking =>
      if t.tick <= s.clock then SetCall(s.(timers := s.timers[call.timer := t.(status := Aborted)]), tested)
      else SetCall(s, call.(stage := Inserting, checked := Now(s)))
    case Inserting =>
      SetCall(InsertTimer(s, call.timer), leave)
    case Testing =>
      SetCall(s, call.(stage := if t.status == Added then Asking else Releasing))
    case Asking => WaitCall(s, t.signal, call.(stage := Blocking))
    case Blocking => s
    case Releasing =>
      SetCall(ReleaseTimer(s, call.timer), User(Delayed(call.start, call.ticks, call.stamped, call.checked)))
  }

  function ReleaseTimer(s: State, tm: TimerId): State
    requires s.core.running < |s.core.tasks| && tm < |s.timers|
  {
    var t := s.timers[tm];
    s.(core := Free(s.core, t.signal),
       timers := s.timers[tm := t.(task := None, op := NoOp, status := Invalid, aborted := false)])
  }

  function AllocateAny(c: Core): (r: (Core, Signals))
    requires c.running < |c.tasks|
  {
    (Allocate(c, -1), Choose(Run(c).sigAlloc, -1).1)
  }

  // -- The actions --

  // A pended PendSV is taken before the next task-level region.
  predicate Turn(s: State) { !(s.core.pendsv && s.core.nest < 0) }

  predicate AtUser(s: State) {
    Turn(s) && Me(s) < |s.calls| && s.calls[Me(s)].User?
  }

  predicate By(s: State, irq: bool) {
    if irq then s.core.nest < 0 else AtUser(s)
  }

  predicate HasFreeSignal(s: State) {
    Me(s) < |s.core.tasks| && Choose(Run(s.core).sigAlloc, -1).0 != -1
  }

  ghost predicate Enabled(s: State, a: Action) {
    && Sane(s)
    && match a
       case Disable => AtUser(s)
       case Enable => AtUser(s) && s.core.nest >= 0
       case TaskInit(_) => AtUser(s)
       case TaskSchedule(t) => AtUser(s) && t < |s.core.tasks| && s.core.tasks[t].state == Initialized
       case TaskSetPrio(t, prio) => AtUser(s) && t < |s.core.tasks|
       case SignalAllocate(n) => AtUser(s) && -1 <= n < SIGNALS_WIDTH
       case SignalFree(sigs) => AtUser(s) && sigs * SIGF_SINGLE == {} && sigs <= Run(s.core).sigAlloc
       case SignalWait(_) => AtUser(s) && Me(s) != INIT
       case SignalSend(irq, t, _) => By(s, irq) && t < |s.core.tasks|
       case SemInit(_) => AtUser(s)
       case SemAddRequest(m, req) => AtUser(s) && m < |s.sems| && req.waiter < |s.core.tasks|
       case SemWait(m) => AtUser(s) && m < |s.sems| && Me(s) != INIT
       case SemSignal(irq, m) =>
         && By(s, irq) && m < |s.sems|
         && (s.sems[m].count + 1 < 0 ==> Dequeued(s.sems[m]).Some?)
         && (Dequeued(s.sems[m]).Some? ==>
              Dequeued(s.sems[m]).value.waiter != Me(s) && Dequeued(s.sems[m]).value.signal != {})
       case PortInit => AtUser(s) && HasFreeSignal(s)
       case PortConfigure(p, owner, _) =>
         AtUser(s) && p < |s.ports| && s.ports[p].owner == Me(s) && (owner.Some? ==> owner.value < |s.core.tasks|)
       case PortWait(p) => AtUser(s) && p < |s.ports| && s.ports[p].owner == Me(s) != INIT
       case PortGet(p) => AtUser(s) && p < |s.ports|
       case PortSend(irq, p, _) => By(s, irq) && p < |s.ports|
       case TimerAllocate => AtUser(s) && HasFreeSignal(s)
       case TimerAdd(tm, op, _) =>
         && AtUser(s) && tm < |s.timers| && s.timers[tm].task == Some(Me(s)) && !s.timers[tm].local && op != NoOp
         && s.timers[tm].status in {Idling, Done, Aborted}
       case TimerAbort(tm) =>
         AtUser(s) && tm < |s.timers| && !s.timers[tm].local && !s.timers[tm].aborted
       case TimerFree(tm) =>
         && AtUser(s) && tm < |s.timers| && s.timers[tm].task == Some(Me(s)) && !s.timers[tm].local && tm !in s.tq
         && s.timers[tm].signal * SIGF_SINGLE == {} && s.timers[tm].signal <= Run(s.core).sigAlloc
       case TimerDelay(ticks) => AtUser(s) && HasFreeSignal(s) && Me(s) != INIT
       case Proceed => Turn(s) && !s.calls[Me(s)].User?
       case Tim2 => s.core.nest < 0
       case SysTickIrq => s.core.nest < 0
       case PendSVIrq => s.core.pendsv && s.core.nest < 0
  }

  // The references that the actions follow are in range.
  ghost predicate Linked(s: State) {
    && Sane(s)
    && (forall i :: 0 <= i < |s.timers| ==> Owner(s.timers[i]) < |s.core.tasks|)
    && (forall m, i :: 0 <= m < |s.sems| && 0 <= i < |s.sems[m].queue| ==>
          s.sems[m].queue[i].waiter < |s.core.tasks|)
    && (forall p :: 0 <= p < |s.ports| && s.ports[p].task.Some? ==> s.ports[p].task.value < |s.core.tasks|)
    && (forall t :: 0 <= t < |s.calls| && s.calls[t].InPort? ==> s.calls[t].port < |s.ports|)
    && (forall t :: 0 <= t < |s.calls| && s.calls[t].InTimer? ==> s.calls[t].timer < |s.timers|)
    && CanSwitch(s.core)
  }

  ghost function ApplyProceed(s: State): State
    requires Linked(s) && Enabled(s, Proceed)
  {
    match Run(s.core).phase
    case Window(_, _) => s.(core := Kick(s.core))
    case Kicked(sigs, _) =>
      var s1 := s.(core := Resume(s.core));
      if Run(s1.core).phase == Idle then AfterWait(s1, sigs * Run(s.core).sigRecvd) else s1
    case Idle =>
      match s.calls[Me(s)]
      case InTimer(_, _, _, _, _, _, _, _) => TimerStep(s)
      case InSem(m, entry, true) => WaitCall(s, SIGF_SINGLE, InSem(m, entry, false))
      case _ => s
  }

  // s after timer_poll(now).
  ghost function Polled(s: State, now: Ticks): State
    requires Linked(s)
  {
    var (core, timers, tq) := Poll(s.core, s.timers, s.tq, now);
    s.(core := core, timers := timers, tq := tq)
  }

  ghost function ApplyTim2(s: State): State
    requires Linked(s)
  {
    var now := AddTicks(s.clock, 1);
    Polled(s, now).(clock := now, epoch := if now == 0 then s.epoch + 1 else s.epoch)
  }

  // timer_add up to its first reading of the clock.
  function StartAdd(s: State, tm: TimerId, op: TimerOp, value: Ticks): State
    requires Me(s) < |s.calls| && tm < |s.timers|
  {
    var t := s.timers[tm].(op := op);
    var t1 := if op == Delay then t.(delay := value) else t.(tick := value);
    SetCall(s.(timers := s.timers[tm := t1]),
            InTimer(tm, if op == Delay then Stamping else Checking, s.core.nest, false, Now(s), 0,
                    Now(s), Now(s)))
  }

  // timer_delay up to the first reading of the clock in its timer_add.
  function StartDelay(s: State, ticks: Ticks): State
    requires Me(s) < |s.calls| == |s.core.tasks|
  {
    var (core, sig) := AllocateAny(s.core);
    SetCall(s.(core := core, timers := s.timers + [NewTimer(Me(s), sig, true).(op := Delay, delay := ticks)]),
            InTimer(|s.timers|, Stamping, s.core.nest, true, Now(s), ticks, Now(s), Now(s)))
  }

  ghost function ApplyTimer(s: State, a: Action): State
    requires Linked(s) && Enabled(s, a)
    requires TimerAction(a)
  {
    match a
    case TimerAllocate =>
      var (core, sig) := AllocateAny(s.core);
      s.(core := core, timers := s.timers + [NewTimer(Me(s), sig, false)])
    case TimerAdd(tm, op, value) => StartAdd(s, tm, op, value)
    case TimerAbort(tm) =>
      if s.timers[tm].status == Added then
        s.(tq := Without(s.tq, tm), timers := s.timers[tm := Removed(s.timers[tm])])
      else s
    case TimerFree(tm) => ReleaseTimer(s, tm)
    case TimerDelay(ticks) => StartDelay(s, ticks)
  }

  ghost function ApplySem(s: State, a: Action): State
    requires Linked(s) && Enabled(s, a)
    requires SemAction(a)
  {
    match a
    case SemInit(count) => s.(sems := s.sems + [NewSem(count)])
    case SemAddRequest(m, req) => s.(sems := s.sems[m := AddRequest(s.sems[m], req)])
    case SemWait(m) =>
      var s1 := s.(sems := s.sems[m := AddRequest(s.sems[m], Request(Me(s), SIGF_SINGLE))]);
      if s1.sems[m].count < 0 then SetCall(s1, InSem(m, s.core.nest, true)) else s1
    case SemSignal(_, m) =>
      var s1 := s.(sems := s.sems[m := SignalSem(s.sems[m])]);
      match Dequeued(s.sems[m])
      case Some(req) => s1.(core := Send(s1.core, req.waiter, req.signal))
      case None => s1
  }

  ghost function ApplyPort(s: State, a: Action): State
    requires Linked(s) && Enabled(s, a)
    requires MsgAction(a)
  {
    match a
    case PortInit =>
      var (core, sig) := AllocateAny(s.core);
      s.(core := core, ports := s.ports + [Port(Some(Me(s)), sig, Signal, [], Me(s), [], [])])
    case PortConfigure(p, owner, action) =>
      s.(ports := s.ports[p := s.ports[p].(task := owner, action := action)])
    case PortWait(p) =>
      PortLoop(SetCall(s.(core := s.core.(nest := s.core.nest + 1)), InPort(p, s.core.nest)), p)
    case PortGet(p) => s.(ports := s.ports[p := GetMessage(s.ports[p])])
    case PortSend(_, p, msg) =>
      var s1 := s.(ports := s.ports[p := PutMessage(s.ports[p], msg)]);
      if Signals?(s.ports[p]) then s1.(core := Send(s1.core, s.ports[p].task.value, s.ports[p].signal)) else s1
  }

  ghost function ApplyTask(s: State, a: Action): State
    requires Linked(s) && Enabled(s, a)
    requires TaskAction(a)
  {
    match a
    case Disable => s.(core := s.core.(nest := s.core.nest + 1))
    case Enable => s.(core := s.core.(nest := s.core.nest - 1))
    case TaskInit(prio) => s.(core := Create(s.core, prio), calls := s.calls + [User(NoResult)])
    case TaskSchedule(t) => s.(core := Schedule(s.core, t))
    case TaskSetPrio(t, prio) => s.(core := SetPrio(s.core, t, prio))
    case SignalAllocate(n) => s.(core := Allocate(s.core, n))
    case SignalFree(sigs) => s.(core := Free(s.core, sigs))
    case SignalWait(sigs) => WaitCall(s, sigs, InWait(s.core.nest))
    case SignalSend(_, t, sigs) => s.(core := Send(s.core, t, sigs))
  }

  ghost function ApplyIrq(s: State, a: Action): State
    requires Linked(s) && Enabled(s, a)
    requires a.Proceed? || a.Tim2? || a.SysTickIrq? || a.PendSVIrq?
  {
    match a
    case Proceed => ApplyProceed(s)
    case Tim2 => ApplyTim2(s)
    case SysTickIrq => s.(core := SysTick(s.core))
    case PendSVIrq => s.(core := PendSV(s.core))
  }

  ghost function Apply(s: State, a: Action): State
    requires Linked(s) && Enabled(s, a)
  {
    if TaskAction(a) then ApplyTask(s, a)
    else if SemAction(a) then ApplySem(s, a)
    else if MsgAction(a) then ApplyPort(s, a)
    else if TimerAction(a) then ApplyTimer(s, a)
    else ApplyIrq(s, a)
  }

  // -- Runs --

  // After martos_pre: no timers, semaphores or ports yet.
  function Boot(): State {
    State(BootCore(), [User(NoResult)], 0, [], [], 0, [], [], 0)
  }

  // The signals that an action sends to task t, the timer `own` left out.
  ghost function Sent(s: State, a: Action, t: TaskId, own: TimerId): Signals
    requires Linked(s)
  {
    match a
    case SignalSend(_, x, sigs) => if x == t then sigs else {}
    case SemSignal(_, m) =>
      if m < |s.sems| && Dequeued(s.sems[m]).Some? && Dequeued(s.sems[m]).value.waiter == t
      then Dequeued(s.sems[m]).value.signal else {}
    case PortSend(_, p, _) =>
      if p < |s.ports| && Signals?(s.ports[p]) && s.ports[p].task.value == t then s.ports[p].signal else {}
    case Tim2 => DueSignals(s.timers, s.tq, AddTicks(s.clock, 1), t, own)
    case _ => {}
  }

  // The signals of t's timers that timer_poll(now) would find due.
  ghost function DueSignals(timers: seq<Timer>, tq: seq<TimerId>, now: Ticks, t: TaskId, own: TimerId): Signals
    requires forall i :: 0 <= i < |tq| ==> tq[i] < |timers|
  {
    if tq == [] || now < timers[tq[0]].tick then {}
    else (if tq[0] != own && Owner(timers[tq[0]]) == t then timers[tq[0]].signal else {})
         + DueSignals(timers, tq[1..], now, t, own)
  }

  // Nobody but its timer sends the signal that a timer_delay allocated for itself.
  ghost predicate Private(s: State, a: Action)
    requires Linked(s)
  {
    forall t :: 0 <= t < |s.calls| && s.calls[t].InTimer? && s.calls[t].delaying ==>
      Sent(s, a, t, s.calls[t].timer) * s.timers[s.calls[t].timer].signal == {}
  }

  // s goes to s' by the actions in turn, each enabled where it is taken.
  ghost predicate Leads(s: State, actions: seq<Action>, s': State)
    decreases |actions|
  {
    if actions == [] then s == s'
    else Linked(s) && Enabled(s, actions[0]) && Private(s, actions[0]) && Leads(Apply(s, actions[0]), actions[1..], s')
  }

  ghost predicate Reachable(s: State) {
    exists actions :: Leads(Boot(), actions, s)
  }
}
