// The counting semaphore of semaphore.c as an object, over a linked list of requests.
module SemaphoreObjects {
  import opened LinkedLists
  import opened SignalWords
  import opened KernelObjects
  import S = Scheduler
  import M = Machine
  import I = MachineInv

  // What follows the list node in the structure of a request.
  class Req {
    const waiter: Task
    const signal: Word

    constructor (waiter: Task, signal: Word)
      ensures this.waiter == waiter && this.signal == signal
    {
      this.waiter, this.signal := waiter, signal;
    }
  }

  type Request = Node<Req>

  ghost function Value(r: Request): M.Request {
    M.Request(r.item.waiter.id, Bits(r.item.signal))
  }

  ghost function Values(rs: seq<Request>): (vs: seq<M.Request>)
    ensures |vs| == |rs| && forall i :: 0 <= i < |rs| ==> vs[i] == Value(rs[i])
  {
    seq(|rs|, i requires 0 <= i < |rs| => Value(rs[i]))
  }

  // The kernel after sem_signal: the waiter of the request it dequeued is signalled.
  ghost function Released(c: S.Core, found: M.Option<M.Request>): S.Core
    requires c.running < |c.tasks| && S.InRange(c.ready, c.tasks)
  {
    if found.Some? && found.value.waiter < |c.tasks| then S.Send(c, found.value.waiter, found.value.signal) else c
  }

  lemma ReleasedNested(c: S.Core, found: M.Option<M.Request>, nest: int)
    requires c.running < |c.tasks| && S.InRange(c.ready, c.tasks)
    ensures Released(c.(nest := nest), found) == Released(c, found).(nest := nest)
  {
    if found.Some? && found.value.waiter < |c.tasks| {
      SentNested(c, found.value.waiter, found.value.signal, nest);
    }
  }

  // A proof names this to unfold Semaphore.Holds; elsewhere it stays folded.
  ghost predicate OpenRequests(b: bool) { true }

  class Semaphore {
    const kernel: Kernel
    const queue: List<Req>
    var count: int
    // The abstract value, with its history.
    ghost var sem: M.Semaphore

    ghost predicate Valid()
      reads this`count, this`sem, queue`chain, queue.chain`next, queue.chain`prev, kernel`tasks
    {
      sem.count == count && Holds(sem.queue)
    }

    // The queue holds these requests, made by tasks.
    ghost predicate Holds(q: seq<M.Request>)
      reads queue`chain, queue.chain`next, queue.chain`prev, kernel`tasks
    {
      forall b :: OpenRequests(b) ==>
        && queue.Valid() && q == Values(queue.Nodes())
        && (forall i :: 0 <= i < |queue.Nodes()| ==> kernel.Has(queue.Nodes()[i].item.waiter))
    }

    // sem_init
    constructor (kernel: Kernel, count: int)
      ensures Valid() && this.kernel == kernel && sem == M.NewSem(count)
    {
      this.kernel := kernel;
      this.count := count;
      var none := new Req(kernel.running, 0);
      queue := new List(none);
      sem := M.NewSem(count);
    }

    method Disable()
      requires kernel.Valid() && Holds(sem.queue)
      modifies kernel`core, kernel`nest
      ensures kernel.Valid() && Holds(sem.queue) && kernel.core == old(kernel.core).(nest := old(kernel.core).nest + 1)
    {
      kernel.Disable();
    }

    method Enable()
      requires kernel.Valid() && Holds(sem.queue) && kernel.core.nest >= -1
      modifies kernel`core, kernel`nest
      ensures kernel.Valid() && Holds(sem.queue) && kernel.core == old(kernel.core).(nest := old(kernel.core).nest - 1)
    {
      kernel.Enable();
    }

    // sem_add_request
    method AddRequest(req: Request) returns (queued: bool)
      requires kernel.Valid() && Valid() && kernel.core.nest >= -1
      requires req !in queue.chain && kernel.Has(req.item.waiter)
      modifies kernel`core, kernel`nest, this`count, this`sem
      modifies queue`chain, queue.chain`next, queue.chain`prev, req`next, req`prev
      ensures kernel.Valid() && Valid() && kernel.core == old(kernel.core)
      ensures sem == M.AddRequest(old(sem), Value(req))
      ensures queued <==> sem.count < 0
    {
      ghost var c := kernel.core;
      Disable();
      queued := CountDown(req);
      Enable();
      assert kernel.core == c;
    }

    // The body of sem_add_request between disable() and enable().
    method CountDown(req: Request) returns (queued: bool)
      requires kernel.Valid() && Valid() && req !in queue.chain && kernel.Has(req.item.waiter)
      modifies this`count, this`sem, queue`chain, queue.chain`next, queue.chain`prev, req`next, req`prev
      ensures kernel.Valid() && Valid()
      ensures sem == M.AddRequest(old(sem), Value(req))
      ensures queued <==> sem.count < 0
    {
      count := count - 1;
      queued := count < 0;
      if queued {
        Append(req);
      }
      sem := M.AddRequest(sem, Value(req));
    }

    method Append(req: Request)
      requires kernel.Valid() && Holds(sem.queue) && req !in queue.chain && kernel.Has(req.item.waiter)
      modifies queue`chain, queue.chain`next, queue.chain`prev, req`next, req`prev
      ensures kernel.Valid() && Holds(sem.queue + [Value(req)])
    {
      LinkLast(req);
      assert kernel.Valid() by {
        assert OpenValid(true);
        assert kernel.lists.Valid();
      }
    }

    // list_add_tail(&sem->req_queue, req)
    method LinkLast(req: Request)
      requires Holds(sem.queue) && req !in queue.chain && kernel.Has(req.item.waiter)
      modifies queue`chain, queue.chain`next, queue.chain`prev, req`next, req`prev
      ensures Holds(sem.queue + [Value(req)])
    {
      assert OpenRequests(true);
      AddTail(queue, req);
      assert sem.queue + [Value(req)] == Values(queue.Nodes());
    }

    // list_rem_head(&sem->req_queue)
    method UnlinkFirst() returns (req: Node?<Req>)
      requires Holds(sem.queue)
      modifies queue`chain, queue.chain`next, queue.chain`prev
      ensures sem.queue == [] ==> req == null && Holds([])
      ensures sem.queue != [] ==>
        && req != null && Value(req) == sem.queue[0] && kernel.Has(req.item.waiter)
        && Holds(sem.queue[1..])
    {
      assert OpenRequests(true);
      ghost var nodes := queue.Nodes();
      req := RemHead(queue);
      if req != null {
        assert Values(nodes)[1..] == Values(queue.Nodes());
        assert forall i :: 0 <= i < |queue.Nodes()| ==> queue.Nodes()[i] == nodes[i + 1];
      }
    }

    method TakeRequest() returns (req: Node?<Req>)
      requires kernel.Valid() && Holds(sem.queue)
      modifies queue`chain, queue.chain`next, queue.chain`prev
      ensures kernel.Valid()
      ensures sem.queue == [] ==> req == null && Holds([])
      ensures sem.queue != [] ==>
        && req != null && Value(req) == sem.queue[0] && kernel.Has(req.item.waiter)
        && Holds(sem.queue[1..])
    {
      req := UnlinkFirst();
      assert kernel.Valid() by {
        assert OpenValid(true);
        assert kernel.lists.Valid();
      }
    }

    // signal_send changes no request.
    method Wake(req: Request)
      requires kernel.Valid() && Holds(sem.queue) && kernel.Placed(req.item.waiter) && kernel.core.nest >= -1
      modifies kernel`core, kernel`nest, kernel`pendsv, Items(kernel.tasks)`state, Items(kernel.tasks)`sigRecvd
      modifies kernel.lists`readyQ, kernel.lists`waitingQ, kernel.lists.ready`chain, kernel.lists.waiting`chain
      modifies kernel.Nodes()`next, kernel.Nodes()`prev
      ensures kernel.Valid() && Holds(sem.queue)
      ensures kernel.core == S.Send(old(kernel.core), Value(req).waiter, Value(req).signal)
    {
      kernel.Signal(req.item.waiter, req.item.signal);
      assert Holds(sem.queue);
    }

    // What sem_signal finds below zero: a request of a task other than the running one.
    ghost predicate FindsRequest()
      reads this`sem, kernel, kernel.lists
    {
      M.Dequeued(sem).Some? ==>
        var req := M.Dequeued(sem).value;
        && req.waiter < |kernel.tasks| && kernel.Placed(kernel.tasks[req.waiter])
        && req.waiter != kernel.core.running && req.signal != {}
    }

    // The accounting of requests leaves no dequeue without one.
    lemma AlwaysFinds()
      requires kernel.Valid() && S.Wf(kernel.core) && I.SemOk(sem, |kernel.tasks|)
      requires M.Dequeued(sem).Some? ==>
        M.Dequeued(sem).value.waiter != kernel.core.running && M.Dequeued(sem).value.signal != {}
      ensures FindsRequest()
      ensures sem.initial >= -1 && sem.count + 1 < 0 ==> M.Dequeued(sem).Some?
    {
      if M.Dequeued(sem).Some? {
        var n := M.Dequeued(sem).value.waiter;
        kernel.ById(n);
        kernel.AllPlaced(kernel.tasks[n]);
      }
    }

    // sem_signal, with its assertions on the request it finds
    method Signal()
      requires kernel.Valid() && Valid() && kernel.core.nest >= -1
      requires FindsRequest() && (sem.count + 1 < 0 ==> M.Dequeued(sem).Some?)
      requires S.InRange(kernel.core.ready, kernel.core.tasks)
      modifies kernel`core, kernel`nest, kernel`pendsv, Items(kernel.tasks)`state, Items(kernel.tasks)`sigRecvd
      modifies kernel.lists`readyQ, kernel.lists`waitingQ, kernel.lists.ready`chain, kernel.lists.waiting`chain
      modifies kernel.Nodes()`next, kernel.Nodes()`prev
      modifies this`count, this`sem, queue`chain, queue.chain`next, queue.chain`prev
      ensures kernel.Valid() && Valid() && sem == M.SignalSem(old(sem))
      ensures kernel.core == Released(old(kernel.core), M.Dequeued(old(sem)))
    {
      ReleasedNested(kernel.core, M.Dequeued(sem), kernel.core.nest + 1);
      Disable();
      CountUp();
      Enable();
    }

    // The body of sem_signal between disable() and enable().
    method CountUp()
      requires kernel.Valid() && Valid() && kernel.core.nest >= -1
      requires FindsRequest() && (sem.count + 1 < 0 ==> M.Dequeued(sem).Some?)
      requires S.InRange(kernel.core.ready, kernel.core.tasks)
      modifies kernel`core, kernel`nest, kernel`pendsv, Items(kernel.tasks)`state, Items(kernel.tasks)`sigRecvd
      modifies kernel.lists`readyQ, kernel.lists`waitingQ, kernel.lists.ready`chain, kernel.lists.waiting`chain
      modifies kernel.Nodes()`next, kernel.Nodes()`prev
      modifies this`count, this`sem, queue`chain, queue.chain`next, queue.chain`prev
      ensures kernel.Valid() && Valid() && sem == M.SignalSem(old(sem))
      ensures kernel.core == Released(old(kernel.core), M.Dequeued(old(sem)))
    {
      count := count + 1;
      if count < 0 {
        Release();
      } else {
        sem := M.SignalSem(sem);
      }
    }

    method Release()
      requires kernel.Valid() && Holds(sem.queue) && kernel.core.nest >= -1
      requires FindsRequest() && M.Dequeued(sem).Some?
      modifies kernel`core, kernel`nest, kernel`pendsv, Items(kernel.tasks)`state, Items(kernel.tasks)`sigRecvd
      modifies kernel.lists`readyQ, kernel.lists`waitingQ, kernel.lists.ready`chain, kernel.lists.waiting`chain
      modifies kernel.Nodes()`next, kernel.Nodes()`prev
      modifies this`sem, queue`chain, queue.chain`next, queue.chain`prev
      ensures kernel.Valid() && Holds(sem.queue) && sem == M.SignalSem(old(sem))
      ensures kernel.core == S.Send(old(kernel.core), old(sem).queue[0].waiter, old(sem).queue[0].signal)
    {
      var req := TakeRequest();
      assert req != null;
      assert kernel.running != req.item.waiter;
      ZeroIsEmpty(req.item.signal);
      assert 0 != req.item.signal;
      sem := M.SignalSem(sem);
      Wake(req);
    }

    // The first region of sem_wait: it waits, in a second one, if the request was queued.
    method Wait() returns (queued: bool)
      requires kernel.Valid() && Valid() && kernel.core.nest >= -1
      modifies kernel`core, kernel`nest, this`count, this`sem
      modifies queue`chain, queue.chain`next, queue.chain`prev
      ensures kernel.Valid() && Valid() && kernel.core == old(kernel.core)
      ensures sem == M.AddRequest(old(sem), M.Request(kernel.core.running, S.SIGF_SINGLE))
      ensures queued <==> sem.count < 0
    {
      var single := Shift(0);
      var info := new Req(kernel.running, single);
      var req := new Node("", 0, info, 0);
      queued := AddRequest(req);
    }

    // The second region: signal_wait(SIGF_SINGLE) up to its return or its window.
    method Block(signals: Word) returns (done: bool, nestcnt: int)
      requires kernel.Valid() && Holds(sem.queue) && kernel.core.nest >= -1
      requires kernel.running !in kernel.lists.readyQ && kernel.running !in kernel.lists.waitingQ
      modifies kernel`core, kernel`nest, kernel.running.item, kernel.running`next, kernel.running`prev
      modifies kernel.lists`waitingQ, kernel.lists.waiting`chain
      modifies kernel.lists.waiting.chain`next, kernel.lists.waiting.chain`prev
      ensures kernel.Valid() && Holds(sem.queue)
      ensures kernel.core == S.WaitEnter(old(kernel.core), Bits(signals))
      ensures done <==> Bits(signals) * S.Run(old(kernel.core)).sigRecvd != {}
      ensures !done ==> nestcnt == old(kernel.core).nest + 1
    {
      var rcvd;
      done, rcvd, nestcnt := kernel.WaitEnter(signals);
      assert Holds(sem.queue);
    }
  }
}
