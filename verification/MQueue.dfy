/** utils/Queue/mqueue.go: a closable queue on a singly linked list with recycled nodes.

    The list keeps an unusual tail: it is null for fewer than two elements.  Each method is one
    section of the queue's lock; how goroutines interleave between sections is in Delivery. */
module MQueue {

  class Node<T> {
    var value: T
    var next: Node?<T>

    constructor (v: T)
      ensures value == v && next == null
    {
      value := v;
      next := null;
    }
  }

  class MQueue<T> {
    var head: Node?<T>
    var tail: Node?<T>
    var status: bool                // true while the queue is open
    var count: int
    var nodePool: seq<Node<T>>      // what the sync.Pool holds
    const zeroValue: T

    ghost var spine: seq<Node<T>>   // the nodes from head on

    ghost predicate Valid()
      reads this, spine, nodePool
    {
      && Linked()
      && tail == (if |spine| < 2 then null else spine[|spine| - 1])
      && count == |spine|
      && (forall n :: n in nodePool ==> n !in spine && n.next == null && n.value == zeroValue)
      && (forall i, j :: 0 <= i < j < |nodePool| ==> nodePool[i] != nodePool[j])
    }

    // The list from head on, whatever the tail: what appending and removing work on.
    ghost predicate Linked()
      reads this, spine
    {
      && (spine == [] <==> head == null)
      && (spine != [] ==> head == spine[0] && spine[|spine| - 1].next == null)
      && (forall i :: 0 <= i < |spine| - 1 ==> spine[i].next == spine[i + 1])
      && (forall i, j :: 0 <= i < j < |spine| ==> spine[i] != spine[j])
    }

    // The queue's elements, oldest first.
    ghost function Contents(): (s: seq<T>)
      reads this, spine
      ensures |s| == |spine|
    {
      seq(|spine|, i requires 0 <= i < |spine| reads this, spine => spine[i].value)
    }

    // Every node the queue owns, on the list or in the pool.
    ghost function Nodes(): set<Node<T>>
      reads this
    {
      (set n | n in spine) + (set n | n in nodePool)
    }

    constructor (zero: T)
      ensures Valid() && status && Contents() == [] && zeroValue == zero && Nodes() == {}
    {
      zeroValue := zero;
      head, tail, status, count := null, null, true, 0;
      nodePool, spine := [], [];
    }

    // nodePool.Get: any pooled node, or a new one.
    method GetNode() returns (n: Node<T>)
      requires Valid()
      modifies this`nodePool
      ensures Valid() && n !in spine && n !in nodePool
      ensures Nodes() <= old(Nodes()) && (n in old(nodePool) || fresh(n))
    {
      var reuse: bool := *;
      if reuse && nodePool != [] {
        var k :| 0 <= k < |nodePool|;
        n := nodePool[k];
        nodePool := nodePool[..k] + nodePool[k + 1..];
      } else {
        n := new Node(zeroValue);
      }
    }

    method Close()
      requires Valid()
      modifies this`status
      ensures Valid() && !status && Contents() == old(Contents())
    {
      status := false;
    }

    method Enqueue(v: T) returns (ok: bool)
      requires Valid()
      modifies this, Nodes()
      ensures Valid() && fresh(Nodes() - old(Nodes()))
      ensures ok == old(status) == status
      ensures Contents() == if ok then old(Contents()) + [v] else old(Contents())
    {
      if !status {
        return false;
      }
      var n := GetNode();
      n.value := v;
      n.next := null;
      Link(n);
      return true;
    }

    // n becomes the last node of the list.
    method Link(n: Node<T>)
      requires Valid() && n !in spine && n !in nodePool && n.next == null
      modifies this`head, this`tail, this`count, this`spine, spine
      ensures Valid() && spine == old(spine) + [n]
      ensures Contents() == old(Contents()) + [n.value]
    {
      if head == null {
        head := n;
      } else {
        if tail == null {
          tail := n;
          head.next := tail;
        } else {
          var oldTail := tail;
          oldTail.next := n;
          tail := n;
        }
      }
      spine := spine + [n];
      count := count + 1;
    }

    method Dequeue() returns (t: T, ok: bool, isClose: bool)
      requires Valid()
      modifies this, Nodes()
      ensures Valid() && fresh(Nodes() - old(Nodes())) && status == old(status)
      ensures isClose == !status
      ensures ok <==> old(Contents()) != []
      ensures if ok then t == old(Contents())[0] && Contents() == old(Contents())[1..]
              else t == zeroValue && Contents() == []
    {
      isClose := !status;
      if head == null {
        return zeroValue, false, isClose;
      }
      var oldHead := head;
      assert 1 < |spine| ==> oldHead.next == spine[1];
      if oldHead.next == null {
        head := null;
      } else {
        head := oldHead.next;
        if head == tail {
          tail := null;
        }
      }
      spine := spine[1..];
      ok := true;
      count := count - 1;
      t := oldHead.value;
      oldHead.value := zeroValue;
      oldHead.next := null;
      nodePool := nodePool + [oldHead];
    }

    method Count() returns (n: int)
      requires Valid()
      ensures n == |Contents()|
    {
      n := count;
    }
  }
}
