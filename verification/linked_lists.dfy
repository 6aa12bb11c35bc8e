// The intrusive doubly linked list with two sentinel nodes, against its contents.
module LinkedLists {
  import opened Queues

  // `item` is the rest of the structure that starts with the node. `id` numbers the node
  // among its kind.
  class Node<T> {
    var next: Node?<T>
    var prev: Node?<T>
    var name: string
    var prio: Prio
    const item: T
    ghost const id: nat

    constructor (name: string, prio: Prio, item: T, ghost id: nat)
      ensures this.name == name && this.prio == prio && this.item == item && this.id == id
    {
      this.name, this.prio, this.item, this.id := name, prio, item, id;
      next, prev := null, null;
    }
  }

  // Consecutive nodes of c point at each other.
  ghost predicate Linked<T>(c: seq<Node<T>>)
    reads c`next, c`prev
  {
    && (forall i :: 0 <= i < |c| - 1 ==> c[i].next == c[i + 1])
    && (forall i :: 0 < i < |c| ==> c[i].prev == c[i - 1])
  }

  // The only node of a valid chain without a successor is its last.
  lemma EndIsLast<T>(c: seq<Node<T>>, i: nat)
    requires Linked(c) && i < |c| && c[|c| - 1].next == null
    ensures c[i].next == null <==> i == |c| - 1
    ensures i < |c| - 1 ==> c[i].next == c[i + 1]
    ensures i > 0 ==> c[i].prev == c[i - 1]
  {
    if i < |c| - 1 { assert c[i].next == c[i + 1]; }
  }

  class List<T> {
    const head: Node<T>
    const tail: Node<T>
    // The nodes with their sentinels.
    ghost var chain: seq<Node<T>>

    ghost function Nodes(): (c: seq<Node<T>>)
      reads this`chain
    {
      if |chain| < 2 then [] else chain[1..|chain| - 1]
    }

    ghost predicate Valid()
      reads this`chain, chain`next, chain`prev
    {
      && |chain| >= 2 && chain[0] == head && chain[|chain| - 1] == tail
      && head.prev == null && tail.next == null
      && NoDup(chain)
      && Linked(chain)
    }

    // list_init, on a list whose two sentinels are new.
    constructor (item: T)
      ensures Valid() && Nodes() == [] && fresh(chain)
    {
      head := new Node("", 0, item, 0);
      tail := new Node("", 0, item, 0);
      chain := [];
      new;
      head.next := tail;
      head.prev := null;
      tail.next := null;
      tail.prev := head;
      chain := [head, tail];
    }

    method IsEmpty() returns (empty: bool)
      requires Valid()
      ensures empty <==> Nodes() == []
    {
      assert tail.prev == chain[|chain| - 2];
      empty := head == tail.prev;
    }

    method GetHead() returns (node: Node?<T>)
      requires Valid()
      ensures node == if Nodes() == [] then null else Nodes()[0]
    {
      var empty := IsEmpty();
      if empty {
        node := null;
      } else {
        assert head.next == chain[1];
        node := head.next;
      }
    }
  }

  // The members of a chain are its inner nodes and its ends.
  lemma Inner<T>(c: seq<T>, n: T)
    requires |c| >= 2
    ensures n in c <==> n in c[1..|c| - 1] || n == c[0] || n == c[|c| - 1]
  {
    if n in c {
      var i := IndexOf(c, n);
      assert 0 < i < |c| - 1 ==> c[1..|c| - 1][i - 1] == n;
    }
  }

  // The chain between its two ends, when an inner element goes or comes.
  lemma RemoveInner<T>(c: seq<T>, i: nat)
    requires 0 < i < |c| - 1
    ensures RemoveAt(c, i)[1..|c| - 2] == RemoveAt(c[1..|c| - 1], i - 1)
  {}

  lemma InsertInner<T>(c: seq<T>, i: nat, x: T)
    requires 0 < i < |c|
    ensures InsertAt(c, i, x)[1..|c|] == InsertAt(c[1..|c| - 1], i - 1, x)
  {}

  // Two neighbours of c without its element i, and the neighbour whose link changed.
  lemma RemoveAtPair<T>(c: seq<T>, i: nat, j: nat)
    requires NoDup(c) && 0 < i < |c| - 1 && j < |c| - 2
    ensures var d := RemoveAt(c, i);
      && |d| == |c| - 1
      && (j == i - 1 ==> d[j] == c[i - 1] && d[j + 1] == c[i + 1])
      && (j < i - 1 ==> d[j] == c[j] && d[j + 1] == c[j + 1] && c[j] != c[i - 1] && c[j + 1] != c[i + 1])
      && (j > i - 1 ==> d[j] == c[j + 1] && d[j + 1] == c[j + 2] && c[j + 1] != c[i - 1] && c[j + 2] != c[i + 1])
  {}

  lemma RemoveAtWithin<T>(c: seq<T>, i: nat)
    requires i < |c|
    ensures forall x :: x in RemoveAt(c, i) ==> x in c
  {}

  // The two link writes that take c[i] out leave the rest of the chain linked.
  ghost predicate LinkedOver<T>(c: seq<Node<T>>, i: nat)
    requires 0 < i < |c| - 1
    reads c
  {
    && c[i - 1].next == c[i + 1] && c[i + 1].prev == c[i - 1]
    && (forall j :: 0 <= j < |c| - 1 && j != i - 1 ==> c[j].next == c[j + 1])
    && (forall j :: 0 < j < |c| && j != i + 1 ==> c[j].prev == c[j - 1])
  }

  lemma Unspliced<T>(list: List<T>, c: seq<Node<T>>, i: nat)
    requires 0 < i < |c| - 1 && NoDup(c) && LinkedOver(c, i)
    requires list.chain == RemoveAt(c, i) && c[0] == list.head && c[|c| - 1] == list.tail
    requires list.head.prev == null && list.tail.next == null
    ensures list.Valid() && c[i] !in list.chain
    ensures list.Nodes() == RemoveAt(c[1..|c| - 1], i - 1)
  {
    var d := list.chain;
    RemoveInner(c, i);
    RemoveAtNoDup(c, i);
    forall j | 0 <= j < |d| - 1 ensures d[j].next == d[j + 1] && d[j + 1].prev == d[j] {
      RemoveAtPair(c, i, j);
    }
  }

  // list_unlink: the list that it changes is implicit. The node keeps its own links.
  method Unlink<T>(node: Node<T>, ghost list: List<T>)
    requires list.Valid() && node in list.Nodes()
    modifies list`chain, list.chain`next, list.chain`prev
    ensures list.Valid() && node !in list.chain
    ensures list.Nodes() == Without(old(list.Nodes()), node)
    ensures node.next == old(node.next) && node.prev == old(node.prev)
    ensures forall n :: n in list.chain ==> n in old(list.chain)
  {
    ghost var c := list.chain;
    ghost var i := IndexOf(list.Nodes(), node) + 1;
    assert node.prev == c[i - 1] && node.next == c[i + 1];
    node.prev.next := node.next;
    node.next.prev := node.prev;
    list.chain := RemoveAt(c, i);
    assert old(list.Nodes()) == c[1..|c| - 1];
    Unspliced(list, c, i);
    RemoveAtWithin(c, i);
  }

  lemma InsertAtPair<T>(c: seq<T>, i: nat, x: T, j: nat)
    requires NoDup(c) && 0 < i < |c| && j < |c|
    ensures var d := InsertAt(c, i, x);
      && |d| == |c| + 1
      && (j == i - 1 ==> d[j] == c[i - 1] && d[j + 1] == x)
      && (j == i ==> d[j] == x && d[j + 1] == c[i])
      && (j < i - 1 ==> d[j] == c[j] && d[j + 1] == c[j + 1] && c[j] != c[i - 1] && c[j + 1] != c[i])
      && (j > i ==> d[j] == c[j - 1] && d[j + 1] == c[j] && c[j - 1] != c[i - 1] && c[j] != c[i])
  {}

  // The four link writes that put a node between two neighbours make the list valid
  // again: the rest of the old chain c is linked as before.
  ghost predicate LinkedAround<T>(c: seq<Node<T>>, node: Node<T>, i: nat)
    requires 0 < i < |c|
    reads c, node
  {
    && node.prev == c[i - 1] && node.next == c[i] && c[i - 1].next == node && c[i].prev == node
    && (forall j :: 0 <= j < |c| - 1 && j != i - 1 ==> c[j].next == c[j + 1])
    && (forall j :: 0 < j < |c| && j != i ==> c[j].prev == c[j - 1])
  }

  lemma Spliced<T>(list: List<T>, c: seq<Node<T>>, node: Node<T>, i: nat)
    requires 0 < i < |c| && NoDup(c) && node !in c && LinkedAround(c, node, i)
    requires list.chain == InsertAt(c, i, node) && c[0] == list.head && c[|c| - 1] == list.tail
    requires list.head.prev == null && list.tail.next == null
    ensures list.Valid()
    ensures list.Nodes() == InsertAt(c[1..|c| - 1], i - 1, node)
  {
    var d := list.chain;
    InsertInner(c, i, node);
    InsertAtIsExact(c, i, node);
    forall j | 0 <= j < |c| ensures d[j].next == d[j + 1] && d[j + 1].prev == d[j] {
      InsertAtPair(c, i, node, j);
    }
  }

  // The four writes that link a node in before another one.
  method LinkBefore<T>(list: List<T>, node: Node<T>, next: Node<T>, ghost i: nat)
    requires list.Valid() && node !in list.chain && 0 < i < |list.chain| && next == list.chain[i]
    modifies list`chain, list.chain`next, list.chain`prev, node`next, node`prev
    ensures list.Valid()
    ensures list.Nodes() == InsertAt(old(list.Nodes()), i - 1, node)
    ensures forall n :: n in list.chain ==> n == node || n in old(list.chain)
  {
    ghost var c := list.chain;
    assert next.prev == c[i - 1];
    node.next := next;
    node.prev := next.prev;
    next.prev.next := node;
    next.prev := node;
    list.chain := InsertAt(c, i, node);
    assert old(list.Nodes()) == c[1..|c| - 1];
    Spliced(list, c, node, i);
    InsertAtIsExact(c, i, node);
  }

  // list_add_tail
  method AddTail<T>(list: List<T>, node: Node<T>)
    requires list.Valid() && node !in list.chain
    modifies list`chain, list.chain`next, list.chain`prev, node`next, node`prev
    ensures list.Valid()
    ensures list.Nodes() == old(list.Nodes()) + [node]
    ensures forall n :: n in list.chain ==> n == node || n in old(list.chain)
  {
    LinkBefore(list, node, list.tail, |list.chain| - 1);
  }

  lemma AppendedWithout<T>(s: seq<T>, x: T)
    requires x !in s
    ensures Without(s + [x], x) == s
  {
    assert (s + [x])[|s|] == x;
    assert IndexOf(s + [x], x) == |s|;
  }

  // list_add_tail and then list_unlink restore the list.
  method AddTailThenUnlink<T>(list: List<T>, node: Node<T>)
    requires list.Valid() && node !in list.chain
    modifies list`chain, list.chain`next, list.chain`prev, node`next, node`prev
    ensures list.Valid() && node !in list.chain && list.Nodes() == old(list.Nodes())
  {
    ghost var nodes := list.Nodes();
    Inner(list.chain, node);
    AppendedWithout(nodes, node);
    AddTail(list, node);
    assert list.Nodes()[|nodes|] == node;
    assert forall i :: 0 <= i < |list.chain| ==> list.chain[i] == node || list.chain[i] in old(list.chain);
    Unlink(node, list);
  }

  // list_rem_head
  method RemHead<T>(list: List<T>) returns (node: Node?<T>)
    requires list.Valid()
    modifies list`chain, list.chain`next, list.chain`prev
    ensures list.Valid()
    ensures old(list.Nodes()) == [] ==> node == null && list.chain == old(list.chain)
    ensures old(list.Nodes()) != [] ==>
      node == old(list.Nodes())[0] && list.Nodes() == old(list.Nodes())[1..] && node !in list.chain
    ensures forall n :: n in list.chain ==> n in old(list.chain)
  {
    node := list.GetHead();
    if node != null {
      Unlink(node, list);
    }
  }

  // list_insert: nothing for a null predecessor; the sentinel at the end adds at the tail.
  method Insert<T>(list: List<T>, node: Node<T>, prev: Node?<T>)
    requires list.Valid() && node !in list.chain
    requires prev != null ==> prev in list.chain
    modifies list`chain, list.chain`next, list.chain`prev, node`next, node`prev
    ensures list.Valid()
    ensures prev == null ==> list.chain == old(list.chain) && unchanged(node)
    ensures prev == list.tail ==> list.Nodes() == old(list.Nodes()) + [node]
    ensures prev != null && prev != list.tail ==> IndexOf(old(list.chain), prev) <= |old(list.Nodes())|
    ensures prev != null && prev != list.tail ==>
      list.Nodes() == InsertAt(old(list.Nodes()), IndexOf(old(list.chain), prev), node)
  {
    if prev == null {
    } else if prev.next != null {
      ghost var i := IndexOf(list.chain, prev);
      EndIsLast(list.chain, i);
      LinkBefore(list, node, prev.next, i + 1);
    } else {
      EndIsLast(list.chain, IndexOf(list.chain, prev));
      AddTail(list, node);
    }
  }

  ghost function PriosOf<T>(nodes: seq<Node<T>>): (ps: seq<int>)
    reads nodes
    ensures |ps| == |nodes| && forall i :: 0 <= i < |nodes| ==> ps[i] == nodes[i].prio
  {
    seq(|nodes|, i requires 0 <= i < |nodes| reads nodes => nodes[i].prio)
  }

  // The slot is the first position with a smaller key.
  lemma SlotIsFirst(keys: seq<int>, k: int, i: nat)
    requires i <= |keys| && (forall j :: 0 <= j < i ==> keys[j] >= k) && (i < |keys| ==> keys[i] < k)
    ensures Slot(keys, k) == i
  {}

  lemma SlotFound<T>(list: List<T>, prio: int, i: nat)
    requires list.Valid() && 0 < i < |list.chain|
    requires forall j :: 0 < j < i ==> list.chain[j].prio >= prio
    requires i < |list.chain| - 1 ==> list.chain[i].prio < prio
    ensures Slot(PriosOf(list.Nodes()), prio) == i - 1
  {
    SlotIsFirst(PriosOf(list.Nodes()), prio, i - 1);
  }

  // The walk of list_enqueue: the node to insert before, the end sentinel if there is none.
  method FindSlot<T>(list: List<T>, prio: int) returns (nextnode: Node<T>, ghost i: nat)
    requires list.Valid()
    ensures 0 < i < |list.chain| && nextnode == list.chain[i]
    ensures i - 1 == Slot(PriosOf(list.Nodes()), prio)
  {
    EndIsLast(list.chain, 0);
    nextnode := list.head.next;
    i := 1;
    while nextnode.next != null
      invariant 0 < i < |list.chain| && nextnode == list.chain[i]
      invariant forall j :: 0 < j < i ==> list.chain[j].prio >= prio
      decreases |list.chain| - i
    {
      EndIsLast(list.chain, i);
      if nextnode.prio < prio {
        break;
      }
      nextnode := nextnode.next;
      i := i + 1;
    }
    EndIsLast(list.chain, i);
    SlotFound(list, prio, i);
  }

  // list_enqueue
  method Enqueue<T>(list: List<T>, node: Node<T>)
    requires list.Valid() && node !in list.chain
    modifies list`chain, list.chain`next, list.chain`prev, node`next, node`prev
    ensures list.Valid()
    ensures list.Nodes() == InsertAt(old(list.Nodes()), Slot(old(PriosOf(list.Nodes())), node.prio), node)
    ensures forall n :: n in list.chain ==> n == node || n in old(list.chain)
  {
    var nextnode, i := FindSlot(list, node.prio);
    LinkBefore(list, node, nextnode, i);
  }

  // list_find
  method Find<T>(start: List<T>, name: string) returns (node: Node?<T>)
    requires start.Valid()
    ensures node == null ==> forall n :: n in start.Nodes() ==> n.name != name
    ensures node != null ==>
      && node in start.Nodes() && node.name == name
      && forall j :: 0 <= j < IndexOf(start.Nodes(), node) ==> start.Nodes()[j].name != name
  {
    ghost var c := start.chain;
    ghost var i := 1;
    var nextnode := start.head.next;
    while nextnode.next != null
      invariant 0 < i < |c| && nextnode == c[i]
      invariant forall j :: 0 <= j < i - 1 ==> start.Nodes()[j].name != name
      decreases |c| - i
    {
      EndIsLast(c, i);
      assert nextnode == start.Nodes()[i - 1];
      if nextnode.name == name {
        return nextnode;
      }
      nextnode := nextnode.next;
      i := i + 1;
    }
    EndIsLast(c, i);
    return null;
  }

  // -- Numbered nodes --

  // q holds the numbers of the nodes in `nodes`, which the table ts lists.
  ghost predicate Numbers<T>(q: seq<nat>, nodes: seq<Node<T>>, ts: seq<Node<T>>) {
    && |q| == |nodes|
    && (forall i :: 0 <= i < |q| ==> q[i] == nodes[i].id && q[i] < |ts| && ts[q[i]] == nodes[i])
  }

  lemma NumbersInsertAt<T>(q: seq<nat>, nodes: seq<Node<T>>, ts: seq<Node<T>>, i: nat, t: Node<T>)
    requires Numbers(q, nodes, ts) && i <= |q| && t.id < |ts| && ts[t.id] == t
    ensures Numbers(InsertAt(q, i, t.id), InsertAt(nodes, i, t), ts)
  {
    var r, n := InsertAt(q, i, t.id), InsertAt(nodes, i, t);
    assert forall j :: 0 <= j < |r| ==> r[j] == if j < i then q[j] else if j == i then t.id else q[j - 1];
    assert forall j :: 0 <= j < |n| ==> n[j] == if j < i then nodes[j] else if j == i then t else nodes[j - 1];
  }

  lemma NumbersWithout<T>(q: seq<nat>, nodes: seq<Node<T>>, ts: seq<Node<T>>, t: Node<T>)
    requires Numbers(q, nodes, ts) && t in nodes
    ensures Numbers(Without(q, t.id), Without(nodes, t), ts)
  {
    var i := IndexOf(nodes, t);
    assert q[i] == t.id;
    assert IndexOf(q, t.id) == i;
  }

  lemma NumbersMember<T>(q: seq<nat>, nodes: seq<Node<T>>, ts: seq<Node<T>>, t: Node<T>)
    requires Numbers(q, nodes, ts) && t.id < |ts| && ts[t.id] == t
    ensures t in nodes <==> t.id in q
  {
    if t in nodes {
      assert q[IndexOf(nodes, t)] == t.id;
    }
    if t.id in q {
      assert nodes[IndexOf(q, t.id)] == t;
    }
  }
}
