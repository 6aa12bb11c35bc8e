// The timer queue of timer.c as objects, over a linked list.
module TimerObjects {
  import opened Queues
  import opened LinkedLists
  import opened SignalWords
  import opened KernelObjects
  import S = Scheduler
  import I = SchedulerInv
  import M = Machine

  // What follows the list node in the structure of a timer.
  class TimerCb {
    var task: Node?<Tcb>
    var signal: Word
    var tick: M.Ticks
    var delay: M.Ticks
    var op: M.TimerOp
    var status: M.TimerStatus
    ghost const id: nat

    constructor (task: Node?<Tcb>, signal: Word, ghost id: nat)
      ensures this.id == id && this.task == task && this.signal == signal
      ensures tick == 0 && delay == 0 && op == M.NoOp && status == M.Idling
    {
      this.id, this.task, this.signal := id, task, signal;
      tick, delay, op, status := 0, 0, M.NoOp, M.Idling;
    }
  }

  type Timer = Node<TimerCb>

  // v is the abstract value of t; what else v says is history.
  ghost predicate ShowsTimer(v: M.Timer, t: Timer)
    reads t.item`task, t.item`signal, t.item`tick, t.item`delay, t.item`op, t.item`status
  {
    && v.task == (if t.item.task == null then M.None else M.Some(t.item.task.id))
    && v.signal == Bits(t.item.signal) && v.tick == t.item.tick && v.delay == t.item.delay
    && v.op == t.item.op && v.status == t.item.status
  }

  ghost function Cbs(ts: seq<Timer>): set<TimerCb> {
    set t | t in ts :: t.item
  }

  // Position k of queue q is the place of a timer with this tick.
  ghost predicate IsPlace(q: seq<nat>, ts: seq<M.Timer>, tick: M.Ticks, k: nat) {
    && (forall j :: 0 <= j < |q| ==> q[j] < |ts|)
    && k == Slot(M.Keys(q, ts), 0 - tick)
  }

  // A proof names this to unfold the two predicates below; elsewhere they stay folded.
  ghost predicate OpenTimers(b: bool) { true }

  class Timers {
    const kernel: Kernel
    const queue: List<TimerCb>
    // timer_now
    var clock: M.Ticks
    // All timers that were allocated, by number, and their abstract values.
    ghost var table: seq<Timer>
    ghost var timers: seq<M.Timer>
    ghost var tq: seq<nat>
    ghost var stamps: nat

    ghost predicate Valid()
      reads this, queue, queue.chain, table, Cbs(table), kernel, kernel.lists, kernel.lists.ready, kernel.lists.waiting
      reads kernel.lists.ready.chain, kernel.lists.waiting.chain, kernel.tasks, Items(kernel.tasks)
    {
      kernel.Valid() && Shown(timers) && Queued(tq)
    }

    ghost predicate Shown(vs: seq<M.Timer>)
      reads this`table, kernel`tasks, Cbs(table)`task, Cbs(table)`signal, Cbs(table)`tick
      reads Cbs(table)`delay, Cbs(table)`op, Cbs(table)`status
    {
      forall b :: OpenTimers(b) ==>
        && |vs| == |table|
        && (forall i :: 0 <= i < |table| ==>
              && table[i].id == table[i].item.id == i && ShowsTimer(vs[i], table[i])
              && table[i] != queue.head && table[i] != queue.tail
              && (table[i].item.task != null ==> kernel.Has(table[i].item.task)))
    }

    ghost predicate Queued(q: seq<nat>)
      reads this`table, queue, queue.chain
    {
      forall b :: OpenTimers(b) ==> queue.Valid() && Numbers(q, queue.Nodes(), table)
    }

    ghost predicate Has(t: Timer)
      reads this`table
    {
      t.id < |table| && table[t.id] == t
    }

    constructor (kernel: Kernel)
      requires kernel.Valid()
      ensures Valid() && this.kernel == kernel && tq == [] && timers == [] && clock == 0
    {
      this.kernel := kernel;
      var none := new TimerCb(null, 0, 0);
      queue := new List(none);
      clock := 0;
      table, timers, tq, stamps := [], [], [], 0;
    }

    // The head of the queue; its fields.
    lemma HeadIs(t: Timer)
      requires Shown(timers) && Queued(tq) && queue.Nodes() != [] && t == queue.Nodes()[0]
      ensures |tq| == |queue.Nodes()| && tq[0] == t.id < |timers| == |table| && Has(t) && ShowsTimer(timers[t.id], t)
      ensures t.item.task != null ==> kernel.Has(t.item.task)
    {
      assert OpenTimers(true);
    }

    // list_unlink(&tnode->node)
    method UnlinkHead(tnode: Timer)
      requires Queued(tq) && queue.Nodes() != [] && tnode == queue.Nodes()[0]
      modifies this`tq, queue`chain, queue.chain`next, queue.chain`prev
      ensures Queued(tq) && tnode.next == old(tnode.next)
      ensures queue.Nodes() == old(queue.Nodes())[1..]
      ensures old(tq) != [] && tq == old(tq)[1..]
    {
      assert OpenTimers(true);
      Unlink(tnode, queue);
      tq := tq[1..];
    }

    // The kernel's own lists have none of these nodes.
    method RemoveHead(tnode: Timer)
      requires Valid() && queue.Nodes() != [] && tnode == queue.Nodes()[0]
      modifies this`tq, queue`chain, queue.chain`next, queue.chain`prev
      ensures Valid() && tnode.next == old(tnode.next)
      ensures queue.Nodes() == old(queue.Nodes())[1..]
      ensures old(tq) != [] && tq == old(tq)[1..]
    {
      UnlinkHead(tnode);
      assert kernel.Valid() by {
        assert OpenValid(true);
        assert kernel.lists.Valid();
      }
      assert Shown(timers);
    }

    // tnode->status = TIMER_DONE, of a timer that just left the queue
    method MarkDone(tnode: Timer)
      requires Shown(timers) && Has(tnode) && |timers| == |table|
      modifies this`timers, tnode.item`status
      ensures Shown(timers)
      ensures timers == old(timers)[tnode.id := M.Expired(old(timers)[tnode.id])]
    {
      assert OpenTimers(true);
      tnode.item.status := M.Done;
      timers := timers[tnode.id := M.Expired(timers[tnode.id])];
    }

    // signal_send touches no timer node: the queue stays as it is.
    method SendSignal(t: Task, signals: Word)
      requires Valid() && kernel.Placed(t) && kernel.core.nest >= -1 && kernel.core.running < |kernel.core.tasks|
      modifies kernel`core, kernel`nest, kernel`pendsv, Items(kernel.tasks)`state, Items(kernel.tasks)`sigRecvd
      modifies kernel.lists`readyQ, kernel.lists`waitingQ, kernel.lists.ready`chain, kernel.lists.waiting`chain
      modifies kernel.Nodes()`next, kernel.Nodes()`prev
      ensures kernel.Valid()
      ensures Shown(timers) && Queued(tq) && queue.chain == old(queue.chain)
      ensures forall n: Timer :: old(allocated(n)) ==> n.next == old(n.next)
      ensures kernel.core == S.Send(old(kernel.core), t.id, Bits(signals))
    {
      kernel.Signal(t, signals);
      assert Shown(timers);
      assert Queued(tq);
    }

    // The head of the queue leaves it, done.
    method TakeHead(tnode: Timer)
      requires Valid() && queue.Nodes() != [] && tnode == queue.Nodes()[0]
      modifies this`timers, this`tq, tnode.item`status, queue`chain, queue.chain`next, queue.chain`prev
      ensures Valid() && tnode.next == old(tnode.next)
      ensures queue.Nodes() == old(queue.Nodes())[1..]
      ensures old(tq) != [] && old(tq)[0] == tnode.id < |old(timers)|
      ensures timers == old(timers)[tnode.id := M.Expired(old(timers)[tnode.id])]
      ensures tq == old(tq)[1..]
    {
      HeadIs(tnode);
      RemoveHead(tnode);
      MarkDone(tnode);
      assert Queued(tq);
    }

    // One round of timer_poll's loop.
    method PollOne(tnode: Timer)
      requires Valid() && kernel.core.nest >= -1
      requires queue.Nodes() != [] && tnode == queue.Nodes()[0] && tnode.item.task != null
      requires kernel.Placed(tnode.item.task)
      requires M.Pollable(kernel.core, timers, tq) && tq != []
      modifies kernel`core, kernel`nest, kernel`pendsv, Items(kernel.tasks)`state, Items(kernel.tasks)`sigRecvd
      modifies kernel.lists`readyQ, kernel.lists`waitingQ, kernel.lists.ready`chain, kernel.lists.waiting`chain
      modifies kernel.Nodes()`next, kernel.Nodes()`prev
      modifies this`timers, this`tq, tnode.item`status
      modifies queue`chain, queue.chain`next, queue.chain`prev
      ensures Valid() && tnode.next == old(tnode.next)
      ensures queue.Nodes() == old(queue.Nodes())[1..]
      ensures kernel.core == M.SendHead(old(kernel.core), old(timers), old(tq))
      ensures timers == old(timers)[old(tq)[0] := M.Expired(old(timers)[old(tq)[0]])]
      ensures tq == old(tq)[1..]
    {
      HeadIs(tnode);
      TakeHead(tnode);
      SendSignal(tnode.item.task, tnode.item.signal);
    }

    // -- timer_add --

    // The part of the machine's state that this file works on.
    ghost function Snapshot(): M.State
      reads this, kernel
    {
      M.State(kernel.core, [], clock, timers, tq, stamps, [], [], 0)
    }

    // The node at position i of the queue, or its end.
    lemma NodeAt(i: nat)
      requires Shown(timers) && Queued(tq) && 0 < i < |queue.chain|
      ensures |timers| == |table| && |tq| == |queue.chain| - 2
      ensures forall j :: 0 <= j < |tq| ==> tq[j] < |timers|
      ensures queue.chain[i].next == null <==> i == |queue.chain| - 1
      ensures queue.chain[i].prev == queue.chain[i - 1] && queue.chain[i - 1].next == queue.chain[i]
      ensures i < |queue.chain| - 1 ==>
        queue.chain[i].next == queue.chain[i + 1] && timers[tq[i - 1]].tick == queue.chain[i].item.tick
    {
      assert OpenTimers(true);
      EndIsLast(queue.chain, i);
      EndIsLast(queue.chain, i - 1);
      assert i < |queue.chain| - 1 ==> queue.chain[i] == queue.Nodes()[i - 1];
    }

    // The walk of timer_add: the first node with a later tick, or the end of the queue.
    method FindPlace(tick: M.Ticks) returns (tnode: Timer, ghost i: nat)
      requires Shown(timers) && Queued(tq)
      ensures 0 < i < |queue.chain| && tnode == queue.chain[i]
      ensures IsPlace(tq, timers, tick, i - 1)
    {
      FirstLinks();
      NodeAt(1);
      tnode := queue.head.next;
      i := 1;
      while tnode.next != null
        invariant 0 < i < |queue.chain| && tnode == queue.chain[i]
        invariant forall j :: 0 <= j < i - 1 ==> timers[tq[j]].tick <= tick
        decreases |queue.chain| - i
      {
        NodeAt(i);
        if tick < tnode.item.tick {
          break;
        }
        tnode := tnode.next;
        i := i + 1;
      }
      NodeAt(i);
      SlotIsFirst(M.Keys(tq, timers), 0 - tick, i - 1);
    }

    lemma NotQueued(t: Timer)
      requires Shown(timers) && Queued(tq) && Has(t) && t.id !in tq
      ensures t !in queue.chain && queue.Valid() && Numbers(tq, queue.Nodes(), table)
    {
      assert OpenTimers(true);
      NumbersMember(tq, queue.Nodes(), table, t);
      Inner(queue.chain, t);
    }

    // list_insert or list_add_tail; the kernel's own lists have none of these nodes.
    method InsertNode(t: Timer, next: Timer, ghost i: nat)
      requires kernel.Valid() && queue.Valid()
      requires t !in queue.chain && 0 < i < |queue.chain| && next == queue.chain[i]
      modifies queue`chain, queue.chain`next, queue.chain`prev, t`next, t`prev
      ensures kernel.Valid() && queue.Valid() && queue.Nodes() == InsertAt(old(queue.Nodes()), i - 1, t)
    {
      InsertBefore(queue, t, next, i);
      assert kernel.Valid() by {
        assert OpenValid(true);
        assert kernel.lists.Valid();
      }
    }

    method Link(t: Timer, next: Timer, ghost i: nat)
      requires Valid() && Has(t) && t.id !in tq && 0 < i < |queue.chain| && next == queue.chain[i]
      modifies this`tq, queue`chain, queue.chain`next, queue.chain`prev, t`next, t`prev
      ensures Valid() && i - 1 <= |old(tq)| && tq == InsertAt(old(tq), i - 1, t.id)
    {
      NotQueued(t);
      NumbersInsertAt(tq, queue.Nodes(), table, i - 1, t);
      InsertNode(t, next, i);
      tq := InsertAt(tq, i - 1, t.id);
      assert Shown(timers);
    }

    // The insertion of timer_add.
    method Place(t: Timer) returns (ghost k: nat)
      requires Valid() && Has(t) && t.id !in tq
      modifies this`tq, queue`chain, queue.chain`next, queue.chain`prev, t`next, t`prev
      ensures Valid()
      ensures IsPlace(old(tq), timers, t.item.tick, k) && k <= |old(tq)| && tq == InsertAt(old(tq), k, t.id)
    {
      var tnode, i := FindPlace(t.item.tick);
      k := i - 1;
      Link(t, tnode, i);
    }

    // The node that head.next points at.
    ghost function First(): Timer
      reads queue`chain
    {
      if queue.Nodes() == [] then queue.tail else queue.Nodes()[0]
    }

    lemma FirstLinks()
      requires Shown(timers) && Queued(tq)
      ensures queue.head.next == First() && |queue.chain| >= 2 && First() == queue.chain[1]
      ensures First().next == null <==> queue.Nodes() == []
      ensures queue.Nodes() != [] ==> First().next == if |queue.Nodes()| == 1 then queue.tail else queue.Nodes()[1]
      ensures queue.Nodes() != [] ==> Has(First()) && First() in queue.chain
      ensures forall n :: n in queue.chain ==> n in TimerNodes()
    {
      assert OpenTimers(true);
      EndIsLast(queue.chain, 0);
      EndIsLast(queue.chain, 1);
      forall n | n in queue.chain ensures n in TimerNodes() {
        var i := IndexOf(queue.chain, n);
        if 0 < i < |queue.chain| - 1 {
          assert n == queue.Nodes()[i - 1] && table[tq[i - 1]] == n;
        }
      }
    }

    ghost function TimerNodes(): set<Timer>
      reads this`table
    {
      {queue.head, queue.tail} + set t | t in table
    }

    // A round as its specification sees it, n being the nest count outside.
    method PollDue(tnode: Timer, now: M.Ticks, ghost n: int)
      requires Valid() && Polling(kernel.core, n, timers, tq) && kernel.core.nest >= -1
      requires queue.Nodes() != [] && tnode == queue.Nodes()[0] && tnode.item.tick <= now
      modifies kernel`core, kernel`nest, kernel`pendsv, Items(kernel.tasks)`state, Items(kernel.tasks)`sigRecvd
      modifies kernel.lists`readyQ, kernel.lists`waitingQ, kernel.lists.ready`chain, kernel.lists.waiting`chain
      modifies kernel.Nodes()`next, kernel.Nodes()`prev
      modifies this`timers, this`tq, tnode.item`status, queue`chain, queue.chain`next, queue.chain`prev
      ensures Valid() && Polling(kernel.core, n, timers, tq) && kernel.core.nest == old(kernel.core).nest
      ensures tnode.next == old(tnode.next) && queue.Nodes() == old(queue.Nodes())[1..]
      ensures |tq| < |old(tq)|
      ensures M.Poll(kernel.core.(nest := n), timers, tq, now)
           == M.Poll(old(kernel.core).(nest := n), old(timers), old(tq), now)
    {
      HeadIs(tnode);
      PollRound(kernel.core, n, timers, tq, now);
      PollPlaced(tnode, n);
      PollOne(tnode);
    }

    // `next` of the timer just unlinked still leads on.
    method PollFirst(tnode: Timer, now: M.Ticks, ghost n: int) returns (next: Timer)
      requires Valid() && Polling(kernel.core, n, timers, tq) && kernel.core.nest >= -1
      requires queue.Nodes() != [] && tnode == First() && tnode.item.tick <= now
      modifies kernel`core, kernel`nest, kernel`pendsv, Items(kernel.tasks)`state, Items(kernel.tasks)`sigRecvd
      modifies kernel.lists`readyQ, kernel.lists`waitingQ, kernel.lists.ready`chain, kernel.lists.waiting`chain
      modifies kernel.Nodes()`next, kernel.Nodes()`prev
      modifies this`timers, this`tq, Cbs(table)`status, queue`chain, TimerNodes()`next, TimerNodes()`prev
      ensures Valid() && Polling(kernel.core, n, timers, tq) && kernel.core.nest == old(kernel.core).nest
      ensures next == First() && |tq| < |old(tq)|
      ensures M.Poll(kernel.core.(nest := n), timers, tq, now)
           == M.Poll(old(kernel.core).(nest := n), old(timers), old(tq), now)
    {
      FirstLinks();
      HeadIs(tnode);
      PollDue(tnode, now, n);
      next := tnode.next;
    }

    // The loop of timer_poll.
    method PollAll(now: M.Ticks, ghost c: S.Core)
      requires Valid() && Polling(kernel.core, c.nest, timers, tq) && kernel.core == c.(nest := c.nest + 1) && c.nest >= -1
      modifies kernel`core, kernel`nest, kernel`pendsv, Items(kernel.tasks)`state, Items(kernel.tasks)`sigRecvd
      modifies kernel.lists`readyQ, kernel.lists`waitingQ, kernel.lists.ready`chain, kernel.lists.waiting`chain
      modifies kernel.Nodes()`next, kernel.Nodes()`prev
      modifies this`timers, this`tq, Cbs(table)`status, queue`chain, TimerNodes()`next, TimerNodes()`prev
      ensures Valid() && kernel.core.nest == c.nest + 1
      ensures (kernel.core.(nest := c.nest), timers, tq) == M.Poll(c, old(timers), old(tq), now)
    {
      ghost var n := c.nest;
      FirstLinks();
      var tnode := queue.head.next;
      while tnode.next != null
        invariant Valid() && Polling(kernel.core, n, timers, tq) && kernel.core.nest == n + 1
        invariant tnode == First()
        invariant M.Poll(kernel.core.(nest := n), timers, tq, now) == M.Poll(c, old(timers), old(tq), now)
        decreases |tq|
      {
        FirstLinks();
        if now < tnode.item.tick {
          break;
        }
        tnode := PollFirst(tnode, now, n);
      }
      FirstLinks();
      PollEnds(tnode, now);
    }

    method Disable()
      requires Valid()
      modifies kernel`core, kernel`nest
      ensures Valid() && kernel.core == old(kernel.core).(nest := old(kernel.core).nest + 1)
    {
      kernel.Disable();
    }

    method Enable()
      requires Valid() && kernel.core.nest >= -1
      modifies kernel`core, kernel`nest
      ensures Valid() && kernel.core == old(kernel.core).(nest := old(kernel.core).nest - 1)
    {
      kernel.Enable();
    }

    // timer_poll
    method TimerPoll()
      requires Valid() && Polling(kernel.core, kernel.core.nest, timers, tq) && kernel.core.nest >= -1
      modifies kernel`core, kernel`nest, kernel`pendsv, Items(kernel.tasks)`state, Items(kernel.tasks)`sigRecvd
      modifies kernel.lists`readyQ, kernel.lists`waitingQ, kernel.lists.ready`chain, kernel.lists.waiting`chain
      modifies kernel.Nodes()`next, kernel.Nodes()`prev
      modifies this`timers, this`tq, Cbs(table)`status, queue`chain, TimerNodes()`next, TimerNodes()`prev
      ensures Valid()
      ensures (kernel.core, timers, tq) == M.Poll(old(kernel.core), old(timers), old(tq), clock)
    {
      ghost var c := kernel.core;
      var now := clock;
      Disable();
      PollAll(now, c);
      Enable();
      assert kernel.core == M.Poll(c, old(timers), old(tq), now).0;
    }

    // The loop of timer_poll stops where its specification does.
    lemma PollEnds(t: Timer, now: M.Ticks)
      requires Valid() && t == First() && (t.next == null || (queue.Nodes() != [] && now < t.item.tick))
      ensures tq == [] || (tq[0] < |timers| && now < timers[tq[0]].tick)
    {
      FirstLinks();
      if queue.Nodes() != [] {
        HeadIs(t);
      } else {
        assert OpenTimers(true);
      }
    }

    lemma PollPlaced(t: Timer, n: int)
      requires Valid() && Polling(kernel.core, n, timers, tq) && queue.Nodes() != [] && t == queue.Nodes()[0]
      ensures t.item.task != null && kernel.Placed(t.item.task)
    {
      assert OpenTimers(true);
      HeadIs(t);
      kernel.AllPlaced(t.item.task);
    }

    // timer_add's reading of the clock for a delay
    method TimerStamp(t: Timer)
      requires Valid() && Has(t) && |timers| == |table|
      modifies this`timers, t.item`tick
      ensures Valid()
      ensures timers == old(timers)[t.id := old(timers)[t.id].(tick := M.AddTicks(clock, old(timers)[t.id].delay))]
    {
      HasTick(t);
      SetTick(t, M.AddTicks(clock, t.item.delay));
    }

    method SetTick(t: Timer, tick: M.Ticks)
      requires Shown(timers) && Has(t) && |timers| == |table|
      modifies this`timers, t.item`tick
      ensures Shown(timers) && timers == old(timers)[t.id := old(timers)[t.id].(tick := tick)]
    {
      assert OpenTimers(true);
      t.item.tick := tick;
      timers := timers[t.id := timers[t.id].(tick := tick)];
    }

    // timer_add's test whether the tick has already elapsed
    method TimerCheck(t: Timer) returns (elapsed: bool)
      requires Valid() && Has(t) && |timers| == |table|
      modifies this`timers, t.item`status
      ensures Valid()
      ensures elapsed <==> old(timers)[t.id].tick <= clock
      ensures timers == if elapsed then old(timers)[t.id := old(timers)[t.id].(status := M.Aborted)] else old(timers)
    {
      HasTick(t);
      elapsed := t.item.tick <= clock;
      if elapsed {
        MarkAborted(t);
      }
    }

    method MarkAborted(t: Timer)
      requires Shown(timers) && Has(t) && |timers| == |table|
      modifies this`timers, t.item`status
      ensures Shown(timers) && timers == old(timers)[t.id := old(timers)[t.id].(status := M.Aborted)]
    {
      assert OpenTimers(true);
      t.item.status := M.Aborted;
      timers := timers[t.id := timers[t.id].(status := M.Aborted)];
    }

    // The disabled region of timer_add.
    method TimerInsert(t: Timer)
      requires Valid() && Has(t) && |timers| == |table| && t.id !in tq && kernel.core.nest >= -1
      requires forall j :: 0 <= j < |tq| ==> tq[j] < |timers|
      modifies kernel`core, kernel`nest, this`timers, this`tq, this`stamps, t.item`status
      modifies queue`chain, queue.chain`next, queue.chain`prev, t`next, t`prev
      ensures Valid() && Snapshot() == M.InsertTimer(old(Snapshot()), t.id)
    {
      ghost var s := Snapshot();
      Disable();
      ghost var k := AddToQueue(t);
      Enable();
      InsertedKeys(s, t.id, Snapshot(), k);
    }

    method AddToQueue(t: Timer) returns (ghost k: nat)
      requires Valid() && Has(t) && |timers| == |table| && t.id !in tq
      requires forall j :: 0 <= j < |tq| ==> tq[j] < |timers|
      modifies this`timers, this`tq, this`stamps, t.item`status
      modifies queue`chain, queue.chain`next, queue.chain`prev, t`next, t`prev
      ensures Valid()
      ensures timers == AddedTimer(old(timers), t.id, old(stamps)) && stamps == old(stamps) + 1
      ensures IsPlace(old(tq), timers, timers[t.id].tick, k) && k <= |old(tq)| && tq == InsertAt(old(tq), k, t.id)
    {
      MarkAdded(t);
      HasTick(t);
      k := Place(t);
    }

    lemma HasTick(t: Timer)
      requires Shown(timers) && Has(t)
      ensures |timers| == |table| && ShowsTimer(timers[t.id], t)
    {
      assert OpenTimers(true);
    }

    // timer->status = TIMER_ADDED
    method MarkAdded(t: Timer)
      requires Shown(timers) && Has(t) && |timers| == |table|
      modifies this`timers, this`stamps, t.item`status
      ensures Shown(timers)
      ensures timers == AddedTimer(old(timers), t.id, old(stamps)) && stamps == old(stamps) + 1
    {
      assert OpenTimers(true);
      t.item.status := M.Added;
      timers := AddedTimer(timers, t.id, stamps);
      stamps := stamps + 1;
    }

    // list_unlink(timer)
    method UnlinkTimer(t: Timer)
      requires Shown(timers) && Queued(tq) && Has(t) && t.id in tq
      modifies this`tq, queue`chain, queue.chain`next, queue.chain`prev
      ensures Queued(tq) && tq == Without(old(tq), t.id)
    {
      assert OpenTimers(true);
      NumbersMember(tq, queue.Nodes(), table, t);
      NumbersWithout(tq, queue.Nodes(), table, t);
      Unlink(t, queue);
      tq := Without(tq, t.id);
    }

    method Remove(t: Timer)
      requires Valid() && Has(t) && t.id in tq
      modifies this`tq, queue`chain, queue.chain`next, queue.chain`prev
      ensures Valid() && tq == Without(old(tq), t.id)
    {
      UnlinkTimer(t);
      assert kernel.Valid() by {
        assert OpenValid(true);
        assert kernel.lists.Valid();
      }
      assert Shown(timers);
    }

    // History: timer_abort took the timer out of the queue.
    ghost method RecordAbort(t: Timer)
      requires Valid() && Has(t) && |timers| == |table|
      modifies this`timers
      ensures Valid() && timers == old(timers)[t.id := M.Removed(old(timers)[t.id])]
    {
      timers := timers[t.id := M.Removed(timers[t.id])];
      assert Shown(timers) by { assert OpenTimers(true); }
    }

    // timer_abort: the status stays TIMER_ADDED.
    method TimerAbort(t: Timer)
      requires Valid() && Has(t) && |timers| == |table| && kernel.core.nest >= -1
      requires timers[t.id].status == M.Added ==> t.id in tq
      modifies kernel`core, kernel`nest, this`timers, this`tq, queue`chain, queue.chain`next, queue.chain`prev
      ensures Valid() && kernel.core == old(kernel.core)
      ensures old(timers)[t.id].status == M.Added ==>
        && tq == Without(old(tq), t.id)
        && timers == old(timers)[t.id := M.Removed(old(timers)[t.id])]
      ensures old(timers)[t.id].status != M.Added ==> tq == old(tq) && timers == old(timers)
    {
      HasTick(t);
      ghost var c := kernel.core;
      Disable();
      if t.item.status == M.Added {
        Remove(t);
        RecordAbort(t);
      }
      Enable();
      assert kernel.core == c;
    }

    // timer_allocate, of a timer whose memory is new; its assertion is the last precondition
    method TimerAllocate(ghost local: bool) returns (t: Timer)
      requires Valid() && kernel.core.nest >= -1
      requires S.Choose(S.Run(kernel.core).sigAlloc, -1).0 != -1
      modifies kernel`core, kernel`nest, kernel.running.item, this`table, this`timers
      ensures Valid() && fresh(t) && table == old(table) + [t]
      ensures kernel.core == M.AllocateAny(old(kernel.core)).0
      ensures timers == old(timers) + [M.NewTimer(old(kernel.core).running, M.AllocateAny(old(kernel.core)).1, local)]
    {
      var signum := Allocate();
      t := NewTimer(signum, local);
    }

    method Allocate() returns (signum: nat)
      requires Valid() && kernel.core.nest >= -1
      requires S.Choose(S.Run(kernel.core).sigAlloc, -1).0 != -1
      modifies kernel`core, kernel`nest, kernel.running.item
      ensures Valid() && signum < S.SIGNALS_WIDTH
      ensures kernel.core == M.AllocateAny(old(kernel.core)).0
      ensures {signum} == M.AllocateAny(old(kernel.core)).1
    {
      signum := kernel.SignalAllocate(-1);
      assert Shown(timers);
    }

    method NewTimer(signum: nat, ghost local: bool) returns (t: Timer)
      requires Valid() && signum < S.SIGNALS_WIDTH
      modifies this`table, this`timers
      ensures Valid() && fresh(t) && table == old(table) + [t]
      ensures timers == old(timers) + [M.NewTimer(kernel.core.running, {signum}, local)]
    {
      var signal := Shift(signum);
      var cb := new TimerCb(kernel.running, signal, |table|);
      t := new Node("", 0, cb, |table|);
      Append(t, M.NewTimer(kernel.core.running, {signum}, local));
    }

    ghost method Append(t: Timer, v: M.Timer)
      requires Valid() && ShowsTimer(v, t) && t.id == t.item.id == |table| && t !in TimerNodes()
      requires t.item.task != null ==> kernel.Has(t.item.task)
      modifies this`table, this`timers
      ensures Valid() && table == old(table) + [t] && timers == old(timers) + [v]
    {
      assert OpenTimers(true);
      table := table + [t];
      timers := timers + [v];
      assert Shown(timers) && Queued(tq);
    }

    // timer_free, with the assertions of its signal_free as preconditions
    method TimerFree(t: Timer)
      requires Valid() && Has(t) && |timers| == |table|
      requires timers[t.id].signal * S.SIGF_SINGLE == {} && timers[t.id].signal <= S.Run(kernel.core).sigAlloc
      modifies kernel`core, kernel.running.item`sigAlloc, this`timers, t.item`task, t.item`op, t.item`status
      ensures Valid()
      ensures kernel.core == S.Free(old(kernel.core), old(timers)[t.id].signal)
      ensures timers == old(timers)[t.id :=
        old(timers)[t.id].(task := M.None, op := M.NoOp, status := M.Invalid, aborted := false)]
    {
      HasTick(t);
      FreeSignal(t.item.signal);
      Clear(t);
    }

    method FreeSignal(signals: Word)
      requires Valid()
      requires Bits(signals) * S.SIGF_SINGLE == {} && Bits(signals) <= S.Run(kernel.core).sigAlloc
      modifies kernel`core, kernel.running.item`sigAlloc
      ensures Valid() && kernel.core == S.Free(old(kernel.core), Bits(signals))
    {
      kernel.SignalFree(signals);
      assert Shown(timers);
    }

    method Clear(t: Timer)
      requires Shown(timers) && Has(t) && |timers| == |table|
      modifies this`timers, t.item`task, t.item`op, t.item`status
      ensures Shown(timers)
      ensures timers == old(timers)[t.id :=
        old(timers)[t.id].(task := M.None, op := M.NoOp, status := M.Invalid, aborted := false)]
    {
      assert OpenTimers(true);
      t.item.task := null;
      t.item.op := M.NoOp;
      t.item.status := M.Invalid;
      timers := timers[t.id := timers[t.id].(task := M.None, op := M.NoOp, status := M.Invalid, aborted := false)];
    }

    // TIM2_IRQHandler
    method Tim2()
      requires Valid() && Polling(kernel.core, kernel.core.nest, timers, tq) && kernel.core.nest >= -1
      modifies kernel`core, kernel`nest, kernel`pendsv, Items(kernel.tasks)`state, Items(kernel.tasks)`sigRecvd
      modifies kernel.lists`readyQ, kernel.lists`waitingQ, kernel.lists.ready`chain, kernel.lists.waiting`chain
      modifies kernel.Nodes()`next, kernel.Nodes()`prev
      modifies this`clock, this`timers, this`tq, Cbs(table)`status, queue`chain, TimerNodes()`next, TimerNodes()`prev
      ensures Valid() && clock == M.AddTicks(old(clock), 1)
      ensures (kernel.core, timers, tq) == M.Poll(old(kernel.core), old(timers), old(tq), clock)
    {
      clock := M.AddTicks(clock, 1);
      TimerPoll();
    }
  }

  // list_insert before the node found, list_add_tail at the end of the queue.
  method InsertBefore<T>(list: List<T>, node: Node<T>, next: Node<T>, ghost i: nat)
    requires list.Valid() && node !in list.chain && 0 < i < |list.chain| && next == list.chain[i]
    modifies list`chain, list.chain`next, list.chain`prev, node`next, node`prev
    ensures list.Valid() && list.Nodes() == InsertAt(old(list.Nodes()), i - 1, node)
  {
    EndIsLast(list.chain, i);
    if next.next != null {
      ghost var j := IndexOf(list.chain, next.prev);
      assert j == i - 1;
      Insert(list, node, next.prev);
    } else {
      AddTail(list, node);
    }
  }

  ghost function AddedTimer(timers: seq<M.Timer>, n: nat, stamp: nat): (r: seq<M.Timer>)
    requires n < |timers|
    ensures |r| == |timers|
  {
    timers[n := timers[n].(status := M.Added, stamp := stamp, added := timers[n].added + 1, aborted := false)]
  }

  // Neither the new status nor the history of a timer is part of a key.
  lemma InsertedKeys(s: M.State, n: nat, s': M.State, k: nat)
    requires n < |s.timers| && k <= |s.tq|
    requires s' == s.(timers := AddedTimer(s.timers, n, s.stamps), stamps := s.stamps + 1, tq := InsertAt(s.tq, k, n))
    requires IsPlace(s.tq, s'.timers, s'.timers[n].tick, k)
    ensures forall j :: 0 <= j < |s.tq| ==> s.tq[j] < |s.timers|
    ensures s' == M.InsertTimer(s, n)
  {
    assert M.Keys(s.tq, s'.timers) == M.Keys(s.tq, s.timers);
  }

  // What timer_poll relies on, inside and outside its disable(): n is the nest count
  // outside. No queued timer was freed.
  ghost predicate Polling(c: S.Core, n: int, timers: seq<M.Timer>, tq: seq<nat>) {
    && M.Pollable(c, timers, tq)
    && (forall b :: OpenTimers(b) ==> I.Inv(c.(nest := n)) && forall i :: 0 <= i < |tq| ==> timers[tq[i]].task.Some?)
  }

  lemma PollRound(c: S.Core, n: int, timers: seq<M.Timer>, tq: seq<nat>, now: M.Ticks)
    requires Polling(c, n, timers, tq) && tq != [] && timers[tq[0]].tick <= now
    ensures var d, timers' := M.SendHead(c, timers, tq), timers[tq[0] := M.Expired(timers[tq[0]])];
      && Polling(d, n, timers', tq[1..])
      && M.Pollable(c.(nest := n), timers, tq)
      && M.Poll(c.(nest := n), timers, tq, now) == M.Poll(d.(nest := n), timers', tq[1..], now)
  {
    assert OpenTimers(true);
    var tm := timers[tq[0]];
    SentNested(c, M.Owner(tm), tm.signal, n);
    I.SendKeeps(c.(nest := n), M.Owner(tm), tm.signal);
  }
}
