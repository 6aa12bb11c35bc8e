// The kernel's global variables and tasks as objects, over the linked lists. Each
// method is one uninterrupted region. `core` is the state that the whole-run proofs
// reason about: Valid() ties it to the objects, and each method's contract says that it
// changes by the function of module Scheduler.
module KernelObjects {
  import opened Queues
  import opened LinkedLists
  import opened TaskLists
  import opened SignalWords
  import S = Scheduler

  // What follows the list node in the structure of a task.
  class Tcb {
    var sigAlloc: Word
    var sigWait: Word
    var sigRecvd: Word
    var nest: int
    var state: S.RunState
    // The number of the task, as in its node.
    ghost const id: nat

    constructor (ghost id: nat)
      ensures this.id == id
      ensures Bits(sigAlloc) == S.SIGF_SINGLE && Bits(sigWait) == Bits(sigRecvd) == {}
      ensures nest == -1 && state == S.Initialized
    {
      this.id := id;
      sigAlloc, sigWait, sigRecvd := 1, 0, 0;
      nest, state := -1, S.Initialized;
      new;
      assert Mask(0) == 1;
      MaskIsSingleton(0);
      ZeroIsEmpty(0);
    }
  }

  type Task = Node<Tcb>

  // u is the abstract value of task t; its phase and arrival are history.
  ghost predicate Shows(u: S.Task, t: Task)
    reads t`prio, t.item`sigAlloc, t.item`sigWait, t.item`sigRecvd, t.item`nest, t.item`state
  {
    && u.prio == t.prio && u.nest == t.item.nest && u.state == t.item.state
    && u.sigAlloc == Bits(t.item.sigAlloc) && u.sigWait == Bits(t.item.sigWait) && u.sigRecvd == Bits(t.item.sigRecvd)
  }

  ghost function Items(ts: seq<Task>): set<Tcb> {
    set t | t in ts :: t.item
  }

  lemma PriosAgree(q: seq<nat>, nodes: seq<Task>, ts: seq<Task>, vs: seq<S.Task>)
    requires Numbers(q, nodes, ts) && |vs| == |ts| && forall i :: 0 <= i < |ts| ==> Shows(vs[i], ts[i])
    ensures S.InRange(q, vs)
    ensures PriosOf(nodes) == S.Prios(q, vs)
  {}

  // The two halves of Scheduler.MakeReady.
  ghost function Marked(c: S.Core, n: nat): S.Core
    requires n < |c.tasks|
  {
    c.(tasks := c.tasks[n := c.tasks[n].(state := S.Ready, arrival := c.arrivals)], arrivals := c.arrivals + 1)
  }

  ghost function Enqueued(c: S.Core, n: nat): S.Core
    requires n < |c.tasks| && S.InRange(c.ready, c.tasks)
  {
    c.(ready := InsertAt(c.ready, Slot(S.Prios(c.ready, c.tasks), c.tasks[n].prio), n))
  }

  lemma MadeReady(c: S.Core, n: nat)
    requires n < |c.tasks| && S.InRange(c.ready, c.tasks)
    ensures S.InRange(Marked(c, n).ready, Marked(c, n).tasks)
    ensures S.MakeReady(c, n) == Enqueued(Marked(c, n), n)
  {
    assert S.Prios(c.ready, Marked(c, n).tasks) == S.Prios(c.ready, c.tasks);
  }

  ghost function Received(c: S.Core, n: nat, sigs: S.Signals): S.Core
    requires n < |c.tasks|
  {
    S.SetTask(c, n, c.tasks[n].(sigRecvd := c.tasks[n].sigRecvd + sigs))
  }

  ghost function Woken(c: S.Core, n: nat): S.Core
    requires n < |c.tasks| && c.running < |c.tasks| && S.InRange(c.ready, c.tasks)
  {
    var d := S.MakeReady(c.(waiting := Without(c.waiting, n)), n);
    if S.Run(d).prio < d.tasks[n].prio then d.(pendsv := true) else d
  }

  // A region under disable() and enable() does the same whatever the nest count.
  lemma MadeReadyNested(c: S.Core, n: nat, nest: int)
    requires n < |c.tasks| && S.InRange(c.ready, c.tasks)
    ensures S.MakeReady(c.(nest := nest), n) == S.MakeReady(c, n).(nest := nest)
  {}

  lemma SentParts(c: S.Core, n: nat, sigs: S.Signals)
    requires n < |c.tasks| && c.running < |c.tasks| && S.InRange(c.ready, c.tasks)
    ensures var d := Received(c, n, sigs);
      && S.InRange(d.ready, d.tasks)
      && S.Send(c, n, sigs) == if c.tasks[n].state == S.Waiting && sigs * c.tasks[n].sigWait != {} then Woken(d, n) else d
  {}

  lemma SentNested(c: S.Core, n: nat, sigs: S.Signals, nest: int)
    requires n < |c.tasks| && c.running < |c.tasks| && S.InRange(c.ready, c.tasks)
    ensures S.Send(c.(nest := nest), n, sigs) == S.Send(c, n, sigs).(nest := nest)
  {
    var d := Received(c, n, sigs);
    MadeReadyNested(d.(waiting := Without(d.waiting, n)), n, nest);
  }

  // The two ways out of signal_wait's loop test.
  ghost function Blocked(c: S.Core, sigs: S.Signals): S.Core
    requires c.running < |c.tasks|
  {
    S.SetTask(c, c.running, S.Run(c).(state := S.Waiting, phase := S.Window(sigs, c.nest)))
      .(waiting := c.waiting + [c.running], nest := -1)
  }

  ghost function Consumed(c: S.Core, rcvd: S.Signals): S.Core
    requires c.running < |c.tasks|
  {
    S.SetTask(c, c.running, S.Run(c).(sigRecvd := S.Run(c).sigRecvd - rcvd, phase := S.Idle)).(nest := c.nest - 1)
  }

  lemma WaitTestParts(c: S.Core, sigs: S.Signals)
    requires c.running < |c.tasks|
    ensures var got := sigs * S.Run(c).sigRecvd;
      S.WaitTest(c, sigs, c.nest) == if got != {} then Consumed(c, got) else Blocked(c, sigs)
  {}

  ghost function Taken(c: S.Core, target: S.Signals): S.Core
    requires c.running < |c.tasks|
  {
    var u := S.Run(c);
    S.SetTask(c, c.running, u.(sigAlloc := u.sigAlloc + target, sigWait := u.sigWait - target,
                               sigRecvd := u.sigRecvd - target))
  }

  // A proof names these to unfold Kernel.Valid and its parts; elsewhere they stay folded.
  ghost predicate OpenValid(b: bool) { true }
  ghost predicate OpenKernel(b: bool) { true }

  class Kernel {
    var running: Task
    // The lists `ready` and `waiting`.
    const lists: TaskLists<Tcb>
    var nest: int
    var elapsed: nat
    var pendsv: bool
    // All tasks that task_init has set up, by number, and the abstract state.
    ghost var tasks: seq<Task>
    ghost var core: S.Core

    // Everything that a kernel region may change.
    ghost function Objects(): set<object>
      reads this`tasks
    {
      {this, lists, lists.ready, lists.waiting} + Nodes() + Items(tasks)
    }

    ghost function Nodes(): set<Task>
      reads this`tasks
    {
      lists.Ends() + set t | t in tasks
    }

    ghost predicate Valid()
      reads this, lists, lists.ready`chain, lists.waiting`chain
      reads lists.ready.chain`next, lists.ready.chain`prev, lists.waiting.chain`next, lists.waiting.chain`prev
      reads tasks`prio, Items(tasks)`sigAlloc, Items(tasks)`sigWait, Items(tasks)`sigRecvd
      reads Items(tasks)`nest, Items(tasks)`state
    {
      && Has(running) && core.running == running.id && |core.tasks| == |tasks|
      && (forall b :: OpenValid(b) ==>
            && lists.Valid() && Shown(core.tasks) && Queued(core.ready, core.waiting)
            && core.nest == nest && core.elapsed == elapsed && core.pendsv == pendsv)
    }

    // The tasks have these abstract values.
    ghost predicate Shown(vs: seq<S.Task>)
      reads this`tasks, tasks`prio, Items(tasks)`sigAlloc, Items(tasks)`sigWait, Items(tasks)`sigRecvd
      reads Items(tasks)`nest, Items(tasks)`state
    {
      forall b :: OpenKernel(b) ==>
        && |vs| == |tasks|
        && (forall i :: 0 <= i < |tasks| ==>
              tasks[i].id == tasks[i].item.id == i && Shows(vs[i], tasks[i]) && tasks[i] !in lists.Ends())
    }

    // The lists hold the tasks with these numbers.
    ghost predicate Queued(ready: seq<nat>, waiting: seq<nat>)
      reads this`tasks, lists
    {
      forall b :: OpenKernel(b) ==> Numbers(ready, lists.readyQ, tasks) && Numbers(waiting, lists.waitingQ, tasks)
    }

    ghost predicate Has(t: Task)
      reads this`tasks
    {
      t.id < |tasks| && tasks[t.id] == t
    }

    // martos_pre: the init task is installed as the running one.
    constructor ()
      ensures Valid() && tasks == [running] && fresh(running) && fresh(running.item) && fresh(lists)
      ensures core == S.BootCore()
    {
      var none := new Tcb(0);
      var tcb := new Tcb(0);
      var init := new Node("init", S.TASK_PRIO_EXCLUSIVE, tcb, 0);
      tcb.state := S.Running;
      lists := new TaskLists(none);
      running := init;
      nest, elapsed, pendsv := -1, S.QUANTUM, false;
      tasks, core := [init], S.BootCore();
      new;
      assert Shown(core.tasks);
      assert Queued([], []);
    }

    // platform.c: disable
    method Disable()
      requires Valid()
      modifies this`nest, this`core
      ensures Valid() && core == old(core).(nest := old(core.nest) + 1)
    {
      assert OpenValid(true);
      nest := nest + 1;
      core := core.(nest := nest);
    }

    // platform.c: enable, whose assertion is the precondition
    method Enable()
      requires Valid() && core.nest >= -1
      modifies this`nest, this`core
      ensures Valid() && core == old(core).(nest := old(core.nest) - 1)
    {
      assert OpenValid(true);
      nest := nest - 1;
      core := core.(nest := nest);
    }

    // platform.c: reschedule
    method Reschedule()
      requires Valid()
      modifies this`pendsv, this`core
      ensures Valid() && core == old(core).(pendsv := true)
    {
      assert OpenValid(true);
      pendsv := true;
      core := core.(pendsv := true);
    }

    // What the fields of a task say about its abstract value, and where it is listed.
    lemma Reads(t: Task)
      requires Valid() && Has(t)
      ensures t.id < |core.tasks| && Shows(core.tasks[t.id], t)
      ensures Has(running) && core.running == running.id < |core.tasks| && core.nest == nest
      ensures t in lists.readyQ <==> t.id in core.ready
      ensures t in lists.waitingQ <==> t.id in core.waiting
    {
      assert OpenValid(true);
      assert OpenKernel(true);
      NumbersMember(core.ready, lists.readyQ, tasks, t);
      NumbersMember(core.waiting, lists.waitingQ, tasks, t);
    }

    // state = TASK_READY
    method MarkReady(t: Task)
      requires Valid() && Has(t) && t.id < |core.tasks|
      modifies this`core, t.item`state
      ensures Valid() && core == Marked(old(core), t.id)
    {
      assert OpenValid(true);
      assert OpenKernel(true);
      t.item.state := S.Ready;
      core := Marked(core, t.id);
    }

    // list_enqueue finds the same place as its specification.
    lemma InsertSlot(t: Task)
      requires Valid() && Has(t) && S.InRange(core.ready, core.tasks)
      ensures |core.ready| == |lists.readyQ|
      ensures var i := Slot(PriosOf(lists.readyQ), t.prio);
        && t !in lists.Ends()
        && i == Slot(S.Prios(core.ready, core.tasks), core.tasks[t.id].prio)
        && Numbers(InsertAt(core.ready, i, t.id), InsertAt(lists.readyQ, i, t), tasks)
    {
      assert OpenValid(true);
      assert OpenKernel(true);
      PriosAgree(core.ready, lists.readyQ, tasks, core.tasks);
      NumbersInsertAt(core.ready, lists.readyQ, tasks, Slot(PriosOf(lists.readyQ), t.prio), t);
    }

    // list_enqueue(&ready, task)
    method EnqueueReady(t: Task)
      requires Valid() && Has(t) && t !in lists.readyQ && t !in lists.waitingQ
      requires t.id < |core.tasks| && S.InRange(core.ready, core.tasks)
      modifies this`core, t`next, t`prev
      modifies lists`readyQ, lists.ready`chain, lists.ready.chain`next, lists.ready.chain`prev
      ensures Valid()
      ensures core == Enqueued(old(core), t.id)
    {
      assert OpenValid(true);
      ghost var q := lists.readyQ;
      ghost var i := Slot(PriosOf(q), t.prio);
      InsertSlot(t);
      lists.EnqueueReady(t);
      assert Shown(core.tasks);
      core := Enqueued(core, t.id);
      assert Shown(core.tasks);
      assert Queued(core.ready, core.waiting) by { assert OpenKernel(true); }
    }

    // state = TASK_READY; list_enqueue(&ready, task)
    method MakeReady(t: Task)
      requires Valid() && Has(t) && t !in lists.readyQ && t !in lists.waitingQ
      requires t.id < |core.tasks| && S.InRange(core.ready, core.tasks)
      modifies this`core, t.item`state, t`next, t`prev
      modifies lists`readyQ, lists.ready`chain, lists.ready.chain`next, lists.ready.chain`prev
      ensures Valid()
      ensures core == S.MakeReady(old(core), t.id)
    {
      MadeReady(core, t.id);
      MarkReady(t);
      EnqueueReady(t);
    }

    // list_unlink(task), of a waiting task
    method UnlinkWaiting(t: Task)
      requires Valid() && Has(t) && t in lists.waitingQ
      modifies this`core
      modifies lists`waitingQ, lists.waiting`chain, lists.waiting.chain`next, lists.waiting.chain`prev
      ensures Valid() && t !in lists.waitingQ
      ensures core == old(core).(waiting := Without(old(core.waiting), t.id))
    {
      assert OpenValid(true);
      ghost var q := lists.waitingQ;
      NumbersOfWaiting();
      NumbersWithout(core.waiting, q, tasks, t);
      lists.UnlinkWaiting(t);
      assert Shown(core.tasks);
      core := core.(waiting := Without(core.waiting, t.id));
      assert Queued(core.ready, core.waiting) by { assert OpenKernel(true); }
    }

    lemma NumbersOfWaiting()
      requires Valid()
      ensures Numbers(core.waiting, lists.waitingQ, tasks) && Numbers(core.ready, lists.readyQ, tasks)
    {
      assert OpenValid(true);
      assert OpenKernel(true);
    }

    // list_add_tail(&waiting, task)
    method AddWaiting(t: Task)
      requires Valid() && Has(t) && t !in lists.readyQ && t !in lists.waitingQ
      modifies this`core, t`next, t`prev
      modifies lists`waitingQ, lists.waiting`chain, lists.waiting.chain`next, lists.waiting.chain`prev
      ensures Valid()
      ensures core == old(core).(waiting := old(core.waiting) + [t.id])
    {
      assert OpenValid(true);
      NotAnEnd(t);
      NumbersOfWaiting();
      lists.AddWaiting(t);
      assert Shown(core.tasks);
      core := core.(waiting := core.waiting + [t.id]);
      assert Queued(core.ready, core.waiting) by { assert OpenKernel(true); }
    }

    lemma NotAnEnd(t: Task)
      requires Valid() && Has(t)
      ensures t !in lists.Ends()
    {
      assert OpenValid(true);
      assert OpenKernel(true);
    }

    // list_rem_head(&ready)
    method RemoveReady() returns (t: Task)
      requires Valid() && core.ready != []
      modifies this`core
      modifies lists`readyQ, lists.ready`chain, lists.ready.chain`next, lists.ready.chain`prev
      ensures Valid() && Has(t) && t.id == old(core.ready)[0]
      ensures core == old(core).(ready := old(core.ready)[1..])
    {
      assert OpenValid(true);
      NumbersOfWaiting();
      t := lists.RemoveReady();
      assert Shown(core.tasks);
      core := core.(ready := core.ready[1..]);
      assert Queued(core.ready, core.waiting) by { assert OpenKernel(true); }
    }

    // -- One field of a task --

    method SetRecvd(t: Task, w: Word)
      requires Valid() && Has(t)
      modifies this`core, t.item`sigRecvd
      ensures Valid() && core == S.SetTask(old(core), t.id, old(core).tasks[t.id].(sigRecvd := Bits(w)))
    {
      assert OpenValid(true);
      t.item.sigRecvd := w;
      core := S.SetTask(core, t.id, core.tasks[t.id].(sigRecvd := Bits(w)));
      assert Shown(core.tasks) by { assert OpenKernel(true); }
    }

    method SetWait(t: Task, w: Word)
      requires Valid() && Has(t)
      modifies this`core, t.item`sigWait
      ensures Valid() && core == S.SetTask(old(core), t.id, old(core).tasks[t.id].(sigWait := Bits(w)))
    {
      assert OpenValid(true);
      t.item.sigWait := w;
      core := S.SetTask(core, t.id, core.tasks[t.id].(sigWait := Bits(w)));
      assert Shown(core.tasks) by { assert OpenKernel(true); }
    }

    method SetAlloc(t: Task, w: Word)
      requires Valid() && Has(t)
      modifies this`core, t.item`sigAlloc
      ensures Valid() && core == S.SetTask(old(core), t.id, old(core).tasks[t.id].(sigAlloc := Bits(w)))
    {
      assert OpenValid(true);
      t.item.sigAlloc := w;
      core := S.SetTask(core, t.id, core.tasks[t.id].(sigAlloc := Bits(w)));
      assert Shown(core.tasks) by { assert OpenKernel(true); }
    }

    method SetState(t: Task, state: S.RunState)
      requires Valid() && Has(t)
      modifies this`core, t.item`state
      ensures Valid() && core == S.SetTask(old(core), t.id, old(core).tasks[t.id].(state := state))
    {
      assert OpenValid(true);
      t.item.state := state;
      core := S.SetTask(core, t.id, core.tasks[t.id].(state := state));
      assert Shown(core.tasks) by { assert OpenKernel(true); }
    }

    method SetNest(t: Task, nest: int)
      requires Valid() && Has(t)
      modifies this`core, t.item`nest
      ensures Valid() && core == S.SetTask(old(core), t.id, old(core).tasks[t.id].(nest := nest))
    {
      assert OpenValid(true);
      t.item.nest := nest;
      core := S.SetTask(core, t.id, core.tasks[t.id].(nest := nest));
      assert Shown(core.tasks) by { assert OpenKernel(true); }
    }

    method SetPrio(t: Task, prio: Prio)
      requires Valid() && Has(t)
      modifies this`core, t`prio
      ensures Valid() && core == S.SetTask(old(core), t.id, old(core).tasks[t.id].(prio := prio))
    {
      assert OpenValid(true);
      t.prio := prio;
      core := S.SetTask(core, t.id, core.tasks[t.id].(prio := prio));
      assert Shown(core.tasks) by { assert OpenKernel(true); }
    }

    // History: where the running task stands in signal_wait.
    ghost method SetPhase(phase: S.Phase)
      requires Valid()
      modifies this`core
      ensures Valid() && core == S.SetTask(old(core), old(core).running, S.Run(old(core)).(phase := phase))
    {
      assert OpenValid(true);
      core := S.SetTask(core, core.running, S.Run(core).(phase := phase));
      assert Shown(core.tasks) by { assert OpenKernel(true); }
    }

    // task->sig_recvd |= signals
    method Receive(t: Task, signals: Word)
      requires Valid() && Has(t)
      modifies this`core, t.item`sigRecvd
      ensures Valid() && core == Received(old(core), t.id, Bits(signals))
    {
      Reads(t);
      var w := SetBits(t.item.sigRecvd, signals);
      SetRecvd(t, w);
    }

    lemma ById(n: nat)
      requires Valid() && n < |tasks|
      ensures tasks[n].id == n
    {
      assert OpenValid(true) && OpenKernel(true);
    }

    // t is in the list of its state and in no other.
    ghost predicate Placed(t: Task)
      reads this, lists
    {
      && Has(t) && |core.tasks| == |tasks| && S.InRange(core.ready, core.tasks)
      && (t in lists.readyQ <==> core.tasks[t.id].state == S.Ready)
      && (t in lists.waitingQ <==> core.tasks[t.id].state == S.Waiting)
    }

    lemma AllPlaced(t: Task)
      requires Valid() && S.Wf(core) && Has(t)
      ensures Placed(t)
    {
      Reads(t);
    }

    // task_schedule
    method TaskSchedule(t: Task)
      requires Valid() && Placed(t) && core.nest >= -1 && core.tasks[t.id].state == S.Initialized
      modifies this`core, this`nest, this`pendsv, t.item`state, t`next, t`prev
      modifies lists`readyQ, lists.ready`chain, lists.ready.chain`next, lists.ready.chain`prev
      ensures Valid()
      ensures core == S.Schedule(old(core), t.id)
    {
      Reads(t);
      MadeReadyNested(core, t.id, core.nest + 1);
      Disable();
      MakeReady(t);
      Enable();
      Reschedule();
    }

    // The waiting task is signalled: it becomes ready and preempts a lower priority.
    method Wake(t: Task)
      requires Valid() && Has(t) && t in lists.waitingQ && t !in lists.readyQ
      requires S.InRange(core.ready, core.tasks)
      modifies this`core, this`pendsv, t.item`state, t`next, t`prev
      modifies lists`readyQ, lists.ready`chain, lists.ready.chain`next, lists.ready.chain`prev
      modifies lists`waitingQ, lists.waiting`chain, lists.waiting.chain`next, lists.waiting.chain`prev
      ensures Valid()
      ensures core == Woken(old(core), t.id)
    {
      assert lists.ready != lists.waiting by { assert OpenValid(true); }
      UnlinkWaiting(t);
      MakeReady(t);
      Reads(t);
      Reads(running);
      if running.prio < t.prio {
        Reschedule();
      }
    }

    // TASK_WAITING == task->state && (signals & task->sig_wait)
    method Wakes(t: Task, signals: Word) returns (wakes: bool)
      requires Valid() && Has(t)
      ensures wakes <==>
        core.tasks[t.id].state == S.Waiting && Bits(signals) * core.tasks[t.id].sigWait != {}
    {
      Reads(t);
      wakes := Meets(signals, t.item.sigWait);
      wakes := t.item.state == S.Waiting && wakes;
    }

    // The body of signal_send between disable() and enable().
    method Deliver(t: Task, signals: Word)
      requires Valid() && Placed(t)
      modifies this`core, this`pendsv, t.item`state, t.item`sigRecvd, t`next, t`prev
      modifies lists`readyQ, lists.ready`chain, lists.ready.chain`next, lists.ready.chain`prev
      modifies lists`waitingQ, lists.waiting`chain, lists.waiting.chain`next, lists.waiting.chain`prev
      ensures Valid()
      ensures core == S.Send(old(core), t.id, Bits(signals))
    {
      SentParts(core, t.id, Bits(signals));
      Receive(t, signals);
      var wakes := Wakes(t, signals);
      if wakes {
        Wake(t);
      }
    }

    // signal_send
    method SignalSend(t: Task, signals: Word)
      requires Valid() && Placed(t) && core.nest >= -1
      modifies this`core, this`nest, this`pendsv, t.item`state, t.item`sigRecvd, t`next, t`prev
      modifies lists`readyQ, lists.ready`chain, lists.ready.chain`next, lists.ready.chain`prev
      modifies lists`waitingQ, lists.waiting`chain, lists.waiting.chain`next, lists.waiting.chain`prev
      ensures Valid()
      ensures core == S.Send(old(core), t.id, Bits(signals))
    {
      SentNested(core, t.id, Bits(signals), core.nest + 1);
      Disable();
      Deliver(t, signals);
      Enable();
    }

    // task_set_prio
    method TaskSetPrio(t: Task, prio: Prio)
      requires Valid() && Has(t) && core.nest >= -1
      modifies this`core, this`nest, this`pendsv, t`prio
      ensures Valid()
      ensures core == S.SetPrio(old(core), t.id, prio)
    {
      Disable();
      SetPrio(t, prio);
      Reads(t);
      Reads(running);
      if t == running || (t.item.state == S.Ready && running.prio < t.prio) {
        Reschedule();
      }
      Enable();
    }

    // signal_allocate
    method SignalAllocate(request: int) returns (signal: int)
      requires Valid() && core.nest >= -1 && -1 <= request < S.SIGNALS_WIDTH
      modifies this`core, this`nest, running.item
      ensures Valid()
      ensures core == S.Allocate(old(core), request)
      ensures signal == S.Choose(S.Run(old(core)).sigAlloc, request).0
    {
      Reads(running);
      signal := request;
      var target: Word;
      if signal != -1 {
        target := Shift(signal);
        var taken := Meets(target, running.item.sigAlloc);
        if taken {
          signal := -1;
        }
      } else {
        signal, target := HighestFree(running.item.sigAlloc);
      }
      ZeroIsEmpty(target);
      if 0 < target {
        Take(target);
      }
    }

    // signal_allocate: the bit tried last becomes allocated and loses its history.
    method Take(target: Word)
      requires Valid() && core.nest >= -1
      modifies this`core, this`nest, running.item
      ensures Valid() && core == Taken(old(core), Bits(target))
    {
      MarkTaken(target);
      Disable();
      Reads(running);
      var w := ClearBits(running.item.sigRecvd, target);
      SetRecvd(running, w);
      Enable();
    }

    // What signal_allocate writes with interrupts enabled.
    method MarkTaken(target: Word)
      requires Valid()
      modifies this`core, running.item`sigAlloc, running.item`sigWait
      ensures Valid()
      ensures core == S.SetTask(old(core), old(core).running,
        S.Run(old(core)).(sigAlloc := S.Run(old(core)).sigAlloc + Bits(target),
                          sigWait := S.Run(old(core)).sigWait - Bits(target)))
    {
      Reads(running);
      var alloc := SetBits(running.item.sigAlloc, target);
      var wait := ClearBits(running.item.sigWait, target);
      SetAlloc(running, alloc);
      SetWait(running, wait);
    }

    // signal_free, whose assertions are the last two preconditions
    method SignalFree(signals: Word)
      requires Valid()
      requires Bits(signals) * S.SIGF_SINGLE == {} && Bits(signals) <= S.Run(core).sigAlloc
      modifies this`core, running.item`sigAlloc
      ensures Valid()
      ensures core == S.Free(old(core), Bits(signals))
    {
      Reads(running);
      var w := ClearBits(running.item.sigAlloc, signals);
      SetAlloc(running, w);
    }

    // id_nestcnt = n
    method FakeNest(n: int)
      requires Valid()
      modifies this`core, this`nest
      ensures Valid() && core == old(core).(nest := n)
    {
      assert OpenValid(true);
      nest := n;
      core := core.(nest := n);
    }

    // The body of signal_wait's loop up to the enable() that opens the window: nestcnt is
    // the local backup of id_nestcnt.
    method Block(signals: Word) returns (nestcnt: int)
      requires Valid() && running !in lists.readyQ && running !in lists.waitingQ
      modifies this`core, this`nest, running.item`state, running`next, running`prev
      modifies lists`waitingQ, lists.waiting`chain, lists.waiting.chain`next, lists.waiting.chain`prev
      ensures Valid() && core == Blocked(old(core), Bits(signals)) && nestcnt == old(core).nest
    {
      Reads(running);
      SetState(running, S.Waiting);
      AddWaiting(running);
      nestcnt := nest;
      FakeNest(0);
      Enable();
      SetPhase(S.Window(Bits(signals), nestcnt));
    }

    // The tail of signal_wait.
    method Consume(rcvd: Word)
      requires Valid() && core.nest >= -1
      modifies this`core, this`nest, running.item`sigRecvd
      ensures Valid() && core == Consumed(old(core), Bits(rcvd))
    {
      Reads(running);
      var w := ClearBits(running.item.sigRecvd, rcvd);
      SetRecvd(running, w);
      Enable();
      SetPhase(S.Idle);
    }

    // The loop test of signal_wait, then its tail (done) or the loop's body.
    method WaitTest(signals: Word) returns (done: bool, rcvd: Word, nestcnt: int)
      requires Valid() && core.nest >= 0
      requires running !in lists.readyQ && running !in lists.waitingQ
      modifies this`core, this`nest, running.item, running`next, running`prev
      modifies lists`waitingQ, lists.waiting`chain, lists.waiting.chain`next, lists.waiting.chain`prev
      ensures Valid()
      ensures core == S.WaitTest(old(core), Bits(signals), old(core).nest)
      ensures done <==> Bits(signals) * S.Run(old(core)).sigRecvd != {}
      ensures done ==> Bits(rcvd) == Bits(signals) * S.Run(old(core)).sigRecvd
      ensures done ==> lists.waitingQ == old(lists.waitingQ) && lists.waiting.chain == old(lists.waiting.chain)
      ensures !done ==> nestcnt == old(core).nest
    {
      WaitTestParts(core, Bits(signals));
      Reads(running);
      rcvd := Common(signals, running.item.sigRecvd);
      nestcnt := nest;
      ZeroIsEmpty(rcvd);
      done := rcvd != 0;
      if done {
        Consume(rcvd);
      } else {
        nestcnt := Block(signals);
      }
    }

    // signal_wait up to its first loop test
    method WaitEnter(signals: Word) returns (done: bool, rcvd: Word, nestcnt: int)
      requires Valid() && core.nest >= -1
      requires running !in lists.readyQ && running !in lists.waitingQ
      modifies this`core, this`nest, running.item, running`next, running`prev
      modifies lists`waitingQ, lists.waiting`chain, lists.waiting.chain`next, lists.waiting.chain`prev
      ensures Valid()
      ensures core == S.WaitEnter(old(core), Bits(signals))
      ensures done <==> Bits(signals) * S.Run(old(core)).sigRecvd != {}
      ensures done ==> Bits(rcvd) == Bits(signals) * S.Run(old(core)).sigRecvd
      ensures done ==> lists.waitingQ == old(lists.waitingQ) && lists.waiting.chain == old(lists.waiting.chain)
      ensures !done ==> nestcnt == old(core).nest + 1
    {
      Disable();
      SetWait(running, signals);
      done, rcvd, nestcnt := WaitTest(signals);
    }

    // reschedule() inside signal_wait
    method Kick()
      requires Valid() && S.Run(core).phase.Window?
      modifies this`core, this`pendsv
      ensures Valid() && core == S.Kick(old(core))
    {
      SetPhase(S.Kicked(S.Run(core).phase.sigs, S.Run(core).phase.nestcnt));
      Reschedule();
    }

    // disable(); id_nestcnt = nestcnt; and the next loop test of signal_wait, with the
    // values of its parameter and its local variable
    method Resume(signals: Word, nestcnt: int) returns (done: bool, rcvd: Word)
      requires Valid() && S.Run(core).phase == S.Kicked(Bits(signals), nestcnt) && nestcnt >= 0
      requires running !in lists.readyQ && running !in lists.waitingQ
      modifies this`core, this`nest, running.item, running`next, running`prev
      modifies lists`waitingQ, lists.waiting`chain, lists.waiting.chain`next, lists.waiting.chain`prev
      ensures Valid()
      ensures core == S.Resume(old(core))
      ensures done <==> Bits(signals) * S.Run(old(core)).sigRecvd != {}
      ensures done ==> Bits(rcvd) == Bits(signals) * S.Run(old(core)).sigRecvd
      ensures done ==> lists.waitingQ == old(lists.waitingQ) && lists.waiting.chain == old(lists.waiting.chain)
    {
      Disable();
      FakeNest(nestcnt);
      var backup;
      done, rcvd, backup := WaitTest(signals);
    }

    // PendSV_Handler_user, the case TASK_RUNNING: back to the ready list.
    method Requeue()
      requires Valid() && Placed(running)
      modifies this`core, running.item`state, running`next, running`prev
      modifies lists`readyQ, lists.ready`chain, lists.ready.chain`next, lists.ready.chain`prev
      ensures Valid() && core == S.Requeue(old(core))
    {
      Reads(running);
      if running.item.state == S.Running {
        MakeReady(running);
      }
    }

    // PendSV_Handler_user from saving id_nestcnt on
    method SwitchIn()
      requires Valid() && S.InRange(core.ready, core.tasks) && core.ready != []
      modifies Objects()
      ensures Valid() && tasks == old(tasks) && core == S.SwitchIn(old(core))
    {
      AllWithin();
      Reads(running);
      SetNest(running, nest);
      var head := RemoveReady();
      AllWithin();
      SetState(head, S.Running);
      Install(head);
    }

    // running = head, with its saved nest count and a new quantum
    method Install(head: Task)
      requires Valid() && Has(head)
      modifies this`core, this`running, this`nest, this`elapsed, this`pendsv
      ensures Valid()
      ensures core == old(core).(running := head.id, nest := old(core).tasks[head.id].nest,
                                 elapsed := S.QUANTUM, pendsv := false)
    {
      Reads(head);
      assert OpenValid(true);
      running := head;
      nest := running.item.nest;
      elapsed := S.QUANTUM;
      pendsv := false;
      core := core.(running := head.id, nest := nest, elapsed := S.QUANTUM, pendsv := false);
    }

    // PendSV_Handler_user; its last case, a task that is only initialized, hangs.
    method PendSV()
      requires Valid() && Placed(running) && S.CanSwitch(core) && S.Run(core).state != S.Initialized
      modifies Objects()
      ensures Valid() && tasks == old(tasks) && core == S.PendSV(old(core))
    {
      AllWithin();
      Requeue();
      SwitchIn();
    }

    // The nodes of the lists and the tasks are within what a region may change.
    lemma AllWithin()
      requires Valid()
      ensures forall n :: n in lists.ready.chain || n in lists.waiting.chain ==> n in Nodes()
      ensures forall t :: Has(t) ==> t in Nodes() && t.item in Items(tasks)
    {
      assert OpenValid(true);
      assert OpenKernel(true);
      forall n | n in lists.ready.chain || n in lists.waiting.chain ensures n in Nodes() {
        lists.Separate(n);
        assert n in lists.readyQ || n in lists.waitingQ || n in lists.Ends();
        if n in lists.readyQ {
          assert tasks[core.ready[IndexOf(lists.readyQ, n)]] == n;
        } else if n in lists.waitingQ {
          assert tasks[core.waiting[IndexOf(lists.waitingQ, n)]] == n;
        }
      }
      forall t | Has(t) ensures t in Nodes() && t.item in Items(tasks) {
        assert t in tasks;
      }
    }

    // signal_send, for callers that need not say which task it changes
    method Signal(t: Task, signals: Word)
      requires Valid() && Placed(t) && core.nest >= -1
      modifies this`core, this`nest, this`pendsv, Items(tasks)`state, Items(tasks)`sigRecvd
      modifies lists`readyQ, lists`waitingQ, lists.ready`chain, lists.waiting`chain, Nodes()`next, Nodes()`prev
      ensures Valid()
      ensures core == S.Send(old(core), t.id, Bits(signals))
    {
      AllWithin();
      SignalSend(t, signals);
    }

    // task_init, of a task whose memory is new
    method TaskInit(name: string, prio: Prio) returns (t: Task)
      requires Valid()
      modifies this`core, this`tasks
      ensures Valid() && fresh(t) && fresh(t.item) && tasks == old(tasks) + [t] && t.id == |old(tasks)|
      ensures core == S.Create(old(core), prio)
    {
      assert OpenValid(true);
      var tcb := new Tcb(|tasks|);
      t := new Node(name, prio, tcb, |tasks|);
      tasks := tasks + [t];
      core := S.Create(core, prio);
      assert Shown(core.tasks) && Queued(core.ready, core.waiting) by { assert OpenKernel(true); }
    }

    // SysTick_Handler
    method SysTick()
      requires Valid() && core.elapsed < S.ELAPSED_RANGE
      modifies this`core, this`elapsed, this`pendsv
      ensures Valid() && core == S.SysTick(old(core))
    {
      assert OpenValid(true);
      elapsed := if elapsed == 0 then S.ELAPSED_RANGE - 1 else elapsed - 1;
      if elapsed == 0 {
        pendsv := true;
      }
      core := S.SysTick(core);
    }
  }

  // The search loop of signal_allocate: the highest free signal and its bit, or -1 and
  // the last bit tried.
  method HighestFree(alloc: Word) returns (signal: int, target: Word)
    ensures signal == S.FreeBit(Bits(alloc), S.SIGNALS_WIDTH - 1)
    ensures Bits(target) == {if signal >= 0 then signal else 0}
  {
    signal := S.SIGNALS_WIDTH - 1;
    while true
      invariant 0 <= signal < S.SIGNALS_WIDTH
      invariant S.FreeBit(Bits(alloc), S.SIGNALS_WIDTH - 1) == S.FreeBit(Bits(alloc), signal)
      decreases signal
    {
      target := Shift(signal);
      var taken := Meets(target, alloc);
      assert taken <==> signal in Bits(alloc) by {
        assert signal in {signal} * Bits(alloc) <==> signal in Bits(alloc);
      }
      if !taken {
        break;
      }
      signal := signal - 1;
      if signal <= -1 {
        break;
      }
    }
  }
}
