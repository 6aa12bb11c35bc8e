// The message port of msgport.c as an object, over a linked list of messages.
module MsgPortObjects {
  import opened LinkedLists
  import opened SignalWords
  import opened KernelObjects
  import S = Scheduler
  import M = Machine

  // What follows the list node in the structure of a message. The node's number is the
  // message's.
  class Msg {
    const replyPort: MsgPort?

    constructor (replyPort: MsgPort?)
      ensures this.replyPort == replyPort
    {
      this.replyPort := replyPort;
    }
  }

  type Message = Node<Msg>

  ghost function Value(m: Message): M.Message {
    M.Message(m.id, if m.item.replyPort == null then M.None else M.Some(m.item.replyPort.id))
  }

  ghost function Values(ms: seq<Message>): (vs: seq<M.Message>)
    ensures |vs| == |ms| && forall i :: 0 <= i < |ms| ==> vs[i] == Value(ms[i])
  {
    seq(|ms|, i requires 0 <= i < |ms| => Value(ms[i]))
  }

  // A proof names this to unfold MsgPort.Holds; elsewhere it stays folded.
  ghost predicate OpenMessages(b: bool) { true }

  // The kernel after a message was sent to port p.
  ghost function Notified(c: S.Core, p: M.Port): S.Core
    requires c.running < |c.tasks| && S.InRange(c.ready, c.tasks)
  {
    if M.Signals?(p) && p.task.value < |c.tasks| then S.Send(c, p.task.value, p.signal) else c
  }

  // The kernel after the loop of msgport_wait with an empty queue: a stale signal is
  // consumed by a first signal_wait, a second one blocks.
  ghost function PortBlocked(c: S.Core, sigs: S.Signals): S.Core
    requires c.running < |c.tasks|
  {
    var d := S.WaitEnter(c, sigs);
    if sigs * S.Run(c).sigRecvd != {} then S.WaitEnter(d, sigs) else d
  }

  lemma NotifiedNested(c: S.Core, p: M.Port, nest: int)
    requires c.running < |c.tasks| && S.InRange(c.ready, c.tasks)
    ensures Notified(c.(nest := nest), p) == Notified(c, p).(nest := nest)
  {
    if M.Signals?(p) && p.task.value < |c.tasks| {
      SentNested(c, p.task.value, p.signal, nest);
    }
  }

  // Where msgport_wait's loop stands when it is about to call signal_wait: at its first
  // round, or after a round that consumed every pending signal of the port.
  ghost predicate Resumable(c: S.Core, d: S.Core, sigs: S.Signals)
    requires c.running < |c.tasks| && d.running < |d.tasks|
  {
    d == c || (sigs * S.Run(c).sigRecvd != {} && d == S.WaitEnter(c, sigs) && sigs * S.Run(d).sigRecvd == {})
  }

  lemma RoundOfWait(c: S.Core, d: S.Core, sigs: S.Signals)
    requires c.running < |c.tasks| && d.running < |d.tasks| && Resumable(c, d, sigs)
    ensures var e := S.WaitEnter(d, sigs);
      && e.running < |e.tasks|
      && if sigs * S.Run(d).sigRecvd == {} then e == PortBlocked(c, sigs)
         else Resumable(c, e, sigs) && sigs * S.Run(e).sigRecvd == {} && e.nest == d.nest
  {}

  class MsgPort {
    const kernel: Kernel
    const messages: List<Msg>
    var task: Node?<Tcb>
    var signal: Word
    var action: M.PortAction
    ghost const id: nat
    // The abstract value, with its history.
    ghost var port: M.Port

    ghost predicate Valid()
      reads this`task, this`signal, this`action, this`port
      reads messages`chain, messages.chain`next, messages.chain`prev, kernel`tasks
    {
      && port.task == (if task == null then M.None else M.Some(task.id))
      && (task != null ==> kernel.Has(task))
      && port.signal == Bits(signal) && port.action == action
      && Holds(port.queue)
    }

    ghost predicate Holds(q: seq<M.Message>)
      reads messages`chain, messages.chain`next, messages.chain`prev
    {
      forall b :: OpenMessages(b) ==> messages.Valid() && q == Values(messages.Nodes())
    }

    // The fields that msgport_init sets
    constructor (kernel: Kernel, signum: nat, ghost id: nat)
      requires kernel.Valid() && signum < S.SIGNALS_WIDTH
      ensures Valid() && this.kernel == kernel && this.id == id
      ensures port == M.Port(M.Some(kernel.core.running), {signum}, M.Signal, [], kernel.core.running, [], [])
    {
      this.kernel := kernel;
      this.id := id;
      var none := new Msg(null);
      messages := new List(none);
      var w := Shift(signum);
      signal := w;
      action := M.Signal;
      task := kernel.running;
      port := M.Port(M.Some(kernel.core.running), {signum}, M.Signal, [], kernel.core.running, [], []);
    }

    method Disable()
      requires kernel.Valid() && Valid()
      modifies kernel`core, kernel`nest
      ensures kernel.Valid() && Valid() && kernel.core == old(kernel.core).(nest := old(kernel.core).nest + 1)
    {
      kernel.Disable();
    }

    method Enable()
      requires kernel.Valid() && Valid() && kernel.core.nest >= -1
      modifies kernel`core, kernel`nest
      ensures kernel.Valid() && Valid() && kernel.core == old(kernel.core).(nest := old(kernel.core).nest - 1)
    {
      kernel.Enable();
    }

    // list_add_tail(&port->message_list, message)
    method LinkLast(msg: Message)
      requires Holds(port.queue) && msg !in messages.chain
      modifies messages`chain, messages.chain`next, messages.chain`prev, msg`next, msg`prev
      ensures Holds(port.queue + [Value(msg)])
    {
      assert OpenMessages(true);
      AddTail(messages, msg);
      assert port.queue + [Value(msg)] == Values(messages.Nodes());
    }

    method Append(msg: Message)
      requires kernel.Valid() && Valid() && msg !in messages.chain
      modifies this`port, messages`chain, messages.chain`next, messages.chain`prev, msg`next, msg`prev
      ensures kernel.Valid() && Valid() && port == M.PutMessage(old(port), Value(msg))
    {
      LinkLast(msg);
      port := M.PutMessage(port, Value(msg));
      assert kernel.Valid() by {
        assert OpenValid(true);
        assert kernel.lists.Valid();
      }
    }

    // list_rem_head(&port->message_list)
    method UnlinkFirst() returns (msg: Node?<Msg>)
      requires Holds(port.queue)
      modifies messages`chain, messages.chain`next, messages.chain`prev
      ensures port.queue == [] ==> msg == null && Holds([])
      ensures port.queue != [] ==> msg != null && Value(msg) == port.queue[0] && Holds(port.queue[1..])
    {
      assert OpenMessages(true);
      ghost var nodes := messages.Nodes();
      msg := RemHead(messages);
      if msg != null {
        assert Values(nodes)[1..] == Values(messages.Nodes());
      }
    }

    method Take() returns (msg: Node?<Msg>)
      requires kernel.Valid() && Valid()
      modifies this`port, messages`chain, messages.chain`next, messages.chain`prev
      ensures kernel.Valid() && Valid() && port == M.GetMessage(old(port))
      ensures old(port).queue == [] <==> msg == null
      ensures msg != null ==> Value(msg) == old(port).queue[0]
    {
      msg := UnlinkFirst();
      port := M.GetMessage(port);
      assert kernel.Valid() by {
        assert OpenValid(true);
        assert kernel.lists.Valid();
      }
    }

    // msgport_get
    method Get() returns (msg: Node?<Msg>)
      requires kernel.Valid() && Valid() && kernel.core.nest >= -1
      modifies kernel`core, kernel`nest, this`port, messages`chain, messages.chain`next, messages.chain`prev
      ensures kernel.Valid() && Valid() && kernel.core == old(kernel.core)
      ensures port == M.GetMessage(old(port))
      ensures old(port).queue == [] <==> msg == null
      ensures msg != null ==> Value(msg) == old(port).queue[0]
    {
      ghost var c := kernel.core;
      Disable();
      msg := Take();
      Enable();
      assert kernel.core == c;
    }

    // signal_send changes no message.
    method Notify()
      requires kernel.Valid() && Valid() && task != null && kernel.Placed(task) && kernel.core.nest >= -1
      modifies kernel`core, kernel`nest, kernel`pendsv, Items(kernel.tasks)`state, Items(kernel.tasks)`sigRecvd
      modifies kernel.lists`readyQ, kernel.lists`waitingQ, kernel.lists.ready`chain, kernel.lists.waiting`chain
      modifies kernel.Nodes()`next, kernel.Nodes()`prev
      ensures kernel.Valid() && Valid()
      ensures kernel.core == S.Send(old(kernel.core), port.task.value, port.signal)
    {
      kernel.Signal(task, signal);
      assert Holds(port.queue);
    }

    // msgport_send
    method Send(msg: Message)
      requires kernel.Valid() && Valid() && kernel.core.nest >= -1 && msg !in messages.chain
      requires task != null ==> kernel.Placed(task)
      requires S.InRange(kernel.core.ready, kernel.core.tasks)
      modifies kernel`core, kernel`nest, kernel`pendsv, Items(kernel.tasks)`state, Items(kernel.tasks)`sigRecvd
      modifies kernel.lists`readyQ, kernel.lists`waitingQ, kernel.lists.ready`chain, kernel.lists.waiting`chain
      modifies kernel.Nodes()`next, kernel.Nodes()`prev
      modifies this`port, messages`chain, messages.chain`next, messages.chain`prev, msg`next, msg`prev
      ensures kernel.Valid() && Valid() && port == M.PutMessage(old(port), Value(msg))
      ensures kernel.core == Notified(old(kernel.core), old(port))
    {
      NotifiedNested(kernel.core, port, kernel.core.nest + 1);
      Disable();
      Deliver(msg);
      Enable();
    }

    // The body of msgport_send between disable() and enable().
    method Deliver(msg: Message)
      requires kernel.Valid() && Valid() && kernel.core.nest >= -1 && msg !in messages.chain
      requires task != null ==> kernel.Placed(task)
      requires S.InRange(kernel.core.ready, kernel.core.tasks)
      modifies kernel`core, kernel`nest, kernel`pendsv, Items(kernel.tasks)`state, Items(kernel.tasks)`sigRecvd
      modifies kernel.lists`readyQ, kernel.lists`waitingQ, kernel.lists.ready`chain, kernel.lists.waiting`chain
      modifies kernel.Nodes()`next, kernel.Nodes()`prev
      modifies this`port, messages`chain, messages.chain`next, messages.chain`prev, msg`next, msg`prev
      ensures kernel.Valid() && Valid() && port == M.PutMessage(old(port), Value(msg))
      ensures kernel.core == Notified(old(kernel.core), old(port))
    {
      Append(msg);
      if task != null && action == M.Signal {
        Notify();
      }
    }

    // msgport_wait up to its return or the window of its signal_wait.
    method Wait() returns (msg: Node?<Msg>, nestcnt: int)
      requires kernel.Valid() && Valid() && kernel.core.nest >= -1
      requires kernel.running !in kernel.lists.readyQ && kernel.running !in kernel.lists.waitingQ
      modifies kernel`core, kernel`nest, kernel.running.item, kernel.running`next, kernel.running`prev
      modifies kernel.lists`waitingQ, kernel.lists.waiting`chain
      modifies kernel.lists.waiting.chain`next, kernel.lists.waiting.chain`prev
      ensures kernel.Valid() && Valid() && port == old(port)
      ensures port.queue != [] ==>
        msg != null && Value(msg) == port.queue[0] && kernel.core == old(kernel.core)
      ensures port.queue == [] ==>
        && msg == null && nestcnt >= 0
        && kernel.core == PortBlocked(old(kernel.core).(nest := old(kernel.core).nest + 1), port.signal)
    {
      ghost var c := kernel.core;
      Disable();
      msg, nestcnt := WaitLoop();
      if msg != null {
        Enable();
        assert kernel.core == c;
      }
    }

    // msgport_wait after a wake-up, up to its return or its next blocking; backup is the
    // signal_wait's backup of id_nestcnt.
    method Continue(backup: int) returns (msg: Node?<Msg>, nestcnt: int)
      requires kernel.Valid() && Valid() && backup >= 1
      requires S.Run(kernel.core).phase == S.Kicked(port.signal, backup)
      requires port.signal * S.Run(kernel.core).sigRecvd != {}
      requires kernel.running !in kernel.lists.readyQ && kernel.running !in kernel.lists.waitingQ
      modifies kernel`core, kernel`nest, kernel.running.item, kernel.running`next, kernel.running`prev
      modifies kernel.lists`waitingQ, kernel.lists.waiting`chain
      modifies kernel.lists.waiting.chain`next, kernel.lists.waiting.chain`prev
      ensures kernel.Valid() && Valid() && port == old(port)
      ensures port.queue != [] ==>
        && msg != null && Value(msg) == port.queue[0]
        && kernel.core == S.Resume(old(kernel.core)).(nest := S.Resume(old(kernel.core)).nest - 1)
      ensures port.queue == [] ==>
        msg == null && nestcnt >= 0 && kernel.core == PortBlocked(S.Resume(old(kernel.core)), port.signal)
    {
      Awake(backup);
      msg, nestcnt := WaitLoop();
      if msg != null {
        Enable();
      }
    }

    // The rest of the signal_wait that was woken: it consumes the signal and returns.
    method Awake(backup: int)
      requires kernel.Valid() && Valid() && backup >= 1
      requires S.Run(kernel.core).phase == S.Kicked(port.signal, backup)
      requires port.signal * S.Run(kernel.core).sigRecvd != {}
      requires kernel.running !in kernel.lists.readyQ && kernel.running !in kernel.lists.waitingQ
      modifies kernel`core, kernel`nest, kernel.running.item, kernel.running`next, kernel.running`prev
      modifies kernel.lists`waitingQ, kernel.lists.waiting`chain
      modifies kernel.lists.waiting.chain`next, kernel.lists.waiting.chain`prev
      ensures kernel.Valid() && Valid() && kernel.core == S.Resume(old(kernel.core)) && kernel.core.nest >= 0
      ensures kernel.lists.waitingQ == old(kernel.lists.waitingQ)
      ensures kernel.lists.waiting.chain == old(kernel.lists.waiting.chain)
    {
      var done, rcvd := kernel.Resume(signal, backup);
      assert Holds(port.queue);
    }

    // The loop of msgport_wait, until a signal_wait blocks: a second round is needed only
    // to consume a stale signal.
    method WaitLoop() returns (msg: Node?<Msg>, nestcnt: int)
      requires kernel.Valid() && Valid() && kernel.core.nest >= 0
      requires kernel.running !in kernel.lists.readyQ && kernel.running !in kernel.lists.waitingQ
      modifies kernel`core, kernel`nest, kernel.running.item, kernel.running`next, kernel.running`prev
      modifies kernel.lists`waitingQ, kernel.lists.waiting`chain
      modifies kernel.lists.waiting.chain`next, kernel.lists.waiting.chain`prev
      ensures kernel.Valid() && Valid()
      ensures port.queue != [] ==> msg != null && Value(msg) == port.queue[0] && kernel.core == old(kernel.core)
      ensures port.queue == [] ==>
        msg == null && nestcnt >= 0 && kernel.core == PortBlocked(old(kernel.core), port.signal)
    {
      ghost var c := kernel.core;
      msg := Peek();
      nestcnt := 0;
      var done := true;
      while msg == null && done
        invariant kernel.Valid() && Valid() && kernel.core.nest >= -1
        invariant
          if msg == null then port.queue == []
          else port.queue != [] && Value(msg) == port.queue[0] && kernel.core == c
        invariant done ==> kernel.running !in kernel.lists.readyQ && kernel.running !in kernel.lists.waitingQ
        invariant done ==> kernel.lists.waiting.chain == old(kernel.lists.waiting.chain) && kernel.core.nest >= 0
        invariant msg == null && done ==> Resumable(c, kernel.core, port.signal)
        invariant msg == null && !done ==> nestcnt >= 0 && kernel.core == PortBlocked(c, port.signal)
        decreases done, port.signal * S.Run(kernel.core).sigRecvd != {}
      {
        RoundOfWait(c, kernel.core, port.signal);
        msg, done, nestcnt := Round();
      }
    }

    // signal_wait and, if it returns, the next test of the list.
    method Round() returns (msg: Node?<Msg>, done: bool, nestcnt: int)
      requires kernel.Valid() && Valid() && kernel.core.nest >= -1 && port.queue == []
      requires kernel.running !in kernel.lists.readyQ && kernel.running !in kernel.lists.waitingQ
      modifies kernel`core, kernel`nest, kernel.running.item, kernel.running`next, kernel.running`prev
      modifies kernel.lists`waitingQ, kernel.lists.waiting`chain
      modifies kernel.lists.waiting.chain`next, kernel.lists.waiting.chain`prev
      ensures kernel.Valid() && Valid() && msg == null
      ensures kernel.core == S.WaitEnter(old(kernel.core), port.signal)
      ensures done <==> port.signal * S.Run(old(kernel.core)).sigRecvd != {}
      ensures done ==> kernel.lists.waitingQ == old(kernel.lists.waitingQ)
      ensures done ==> kernel.lists.waiting.chain == old(kernel.lists.waiting.chain)
      ensures !done ==> nestcnt == old(kernel.core).nest + 1
    {
      done, nestcnt := Block();
      msg := null;
      if done {
        msg := Peek();
      }
    }

    // The head of the list, if any.
    method Peek() returns (msg: Node?<Msg>)
      requires Holds(port.queue)
      ensures port.queue == [] <==> msg == null
      ensures msg != null ==> Value(msg) == port.queue[0]
    {
      assert OpenMessages(true);
      msg := messages.GetHead();
    }

    // signal_wait(port->signal)
    method Block() returns (done: bool, nestcnt: int)
      requires kernel.Valid() && Valid() && kernel.core.nest >= -1
      requires kernel.running !in kernel.lists.readyQ && kernel.running !in kernel.lists.waitingQ
      modifies kernel`core, kernel`nest, kernel.running.item, kernel.running`next, kernel.running`prev
      modifies kernel.lists`waitingQ, kernel.lists.waiting`chain
      modifies kernel.lists.waiting.chain`next, kernel.lists.waiting.chain`prev
      ensures kernel.Valid() && Valid()
      ensures kernel.core == S.WaitEnter(old(kernel.core), port.signal)
      ensures done <==> port.signal * S.Run(old(kernel.core)).sigRecvd != {}
      ensures done ==> kernel.lists.waitingQ == old(kernel.lists.waitingQ)
      ensures done ==> kernel.lists.waiting.chain == old(kernel.lists.waiting.chain)
      ensures !done ==> nestcnt == old(kernel.core).nest + 1
    {
      var rcvd;
      done, rcvd, nestcnt := kernel.WaitEnter(signal);
      assert Holds(port.queue);
    }
  }

  // msgport_init, whose assertion is the last precondition
  method Init(kernel: Kernel, ghost id: nat) returns (p: MsgPort)
    requires kernel.Valid() && kernel.core.nest >= -1
    requires S.Choose(S.Run(kernel.core).sigAlloc, -1).0 != -1
    modifies kernel`core, kernel`nest, kernel.running.item
    ensures kernel.Valid() && p.kernel == kernel && p.id == id && p.Valid()
    ensures kernel.core == M.AllocateAny(old(kernel.core)).0
    ensures p.port == M.Port(M.Some(kernel.core.running), M.AllocateAny(old(kernel.core)).1, M.Signal, [],
                             kernel.core.running, [], [])
  {
    var signum := kernel.SignalAllocate(-1);
    assert -1 != signum;
    p := new MsgPort(kernel, signum, id);
  }

  // msgport_reply, whose assertion is the first precondition
  method Reply(msg: Message)
    requires msg.item.replyPort != null
    requires var p := msg.item.replyPort;
      && p.kernel.Valid() && p.Valid() && p.kernel.core.nest >= -1 && msg !in p.messages.chain
      && (p.task != null ==> p.kernel.Placed(p.task))
      && S.InRange(p.kernel.core.ready, p.kernel.core.tasks)
    modifies msg.item.replyPort.kernel`core, msg.item.replyPort.kernel`nest, msg.item.replyPort.kernel`pendsv
    modifies Items(msg.item.replyPort.kernel.tasks)`state, Items(msg.item.replyPort.kernel.tasks)`sigRecvd
    modifies msg.item.replyPort.kernel.lists`readyQ, msg.item.replyPort.kernel.lists`waitingQ
    modifies msg.item.replyPort.kernel.lists.ready`chain, msg.item.replyPort.kernel.lists.waiting`chain
    modifies msg.item.replyPort.kernel.Nodes()`next, msg.item.replyPort.kernel.Nodes()`prev
    modifies msg.item.replyPort`port, msg.item.replyPort.messages`chain
    modifies msg.item.replyPort.messages.chain`next, msg.item.replyPort.messages.chain`prev, msg`next, msg`prev
    ensures var p := msg.item.replyPort;
      && p.kernel.Valid() && p.Valid() && p.port == M.PutMessage(old(p.port), Value(msg))
      && p.kernel.core == Notified(old(p.kernel.core), old(p.port))
  {
    msg.item.replyPort.Send(msg);
  }
}
