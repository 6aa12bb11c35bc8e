// The ready and the waiting list together: no node is in both.
module TaskLists {
  import opened Queues
  import opened LinkedLists

  // A validity predicate of the form `forall b :: OpenX(b) ==> P` stays folded: a proof
  // can pass it on, but sees P only where it mentions OpenX. Writing
  // `assert OpenX(true);` unfolds it there. This keeps the definitions of the lists out
  // of proofs that do not look inside them.
  ghost predicate OpenLists(b: bool) { true }

  class TaskLists<T> {
    const ready: List<T>
    const waiting: List<T>
    // Their contents.
    ghost var readyQ: seq<Node<T>>
    ghost var waitingQ: seq<Node<T>>

    ghost function Ends(): set<Node<T>> {
      {ready.head, ready.tail, waiting.head, waiting.tail}
    }

    ghost predicate Valid()
      reads this, ready`chain, waiting`chain
      reads ready.chain`next, ready.chain`prev, waiting.chain`next, waiting.chain`prev
    {
      ready != waiting && forall b :: OpenLists(b) ==> Linked()
    }

    ghost predicate Linked()
      reads this, ready`chain, waiting`chain
      reads ready.chain`next, ready.chain`prev, waiting.chain`next, waiting.chain`prev
    {
      && ready.Valid() && waiting.Valid()
      && (forall n :: n in ready.chain ==> n !in waiting.chain)
      && readyQ == ready.Nodes() && waitingQ == waiting.Nodes()
    }

    // list_init(&ready); list_init(&waiting)
    constructor (item: T)
      ensures Valid() && readyQ == [] && waitingQ == []
      ensures fresh(this) && fresh(ready) && fresh(waiting) && fresh(Ends())
    {
      ready := new List(item);
      waiting := new List(item);
      readyQ, waitingQ := [], [];
    }

    // What keeps one list intact while the other changes at `node`.
    lemma Separate(node: Node<T>)
      requires Valid()
      ensures forall i :: 0 <= i < |waiting.chain| ==> waiting.chain[i] !in ready.chain
      ensures forall i :: 0 <= i < |ready.chain| ==> ready.chain[i] !in waiting.chain
      ensures node in ready.chain <==> node in readyQ || node in {ready.head, ready.tail}
      ensures node in waiting.chain <==> node in waitingQ || node in {waiting.head, waiting.tail}
    {
      assert OpenLists(true);
      Inner(ready.chain, node);
      Inner(waiting.chain, node);
      assert forall i :: 0 <= i < |waiting.chain| ==> waiting.chain[i] in waiting.chain;
    }

    // list_enqueue(&ready, node)
    method EnqueueReady(node: Node<T>)
      requires Valid() && node !in readyQ && node !in waitingQ && node !in Ends()
      modifies this`readyQ, ready`chain, ready.chain`next, ready.chain`prev, node`next, node`prev
      ensures Valid()
      ensures readyQ == InsertAt(old(readyQ), Slot(old(PriosOf(readyQ)), node.prio), node)
    {
      Separate(node);
      assert OpenLists(true);
      Enqueue(ready, node);
      readyQ := ready.Nodes();
    }

    // list_rem_head(&ready)
    method RemoveReady() returns (node: Node<T>)
      requires Valid() && readyQ != []
      modifies this`readyQ, ready`chain, ready.chain`next, ready.chain`prev
      ensures Valid() && node == old(readyQ)[0] && readyQ == old(readyQ)[1..]
    {
      Separate(ready.head);
      assert OpenLists(true);
      node := RemHead(ready);
      readyQ := ready.Nodes();
    }

    // list_add_tail(&waiting, node)
    method AddWaiting(node: Node<T>)
      requires Valid() && node !in readyQ && node !in waitingQ && node !in Ends()
      modifies this`waitingQ, waiting`chain, waiting.chain`next, waiting.chain`prev, node`next, node`prev
      ensures Valid() && waitingQ == old(waitingQ) + [node]
    {
      Separate(node);
      assert OpenLists(true);
      AddTail(waiting, node);
      waitingQ := waiting.Nodes();
    }

    // list_unlink(node)
    method UnlinkWaiting(node: Node<T>)
      requires Valid() && node in waitingQ
      modifies this`waitingQ, waiting`chain, waiting.chain`next, waiting.chain`prev
      ensures Valid() && waitingQ == Without(old(waitingQ), node) && node !in waitingQ
    {
      Separate(node);
      assert OpenLists(true);
      Unlink(node, waiting);
      waitingQ := waiting.Nodes();
    }
  }
}
