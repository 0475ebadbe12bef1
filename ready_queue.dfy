/** The ready queue: a singly linked FIFO of process references with a head
    and a tail pointer. The ghost sequence `nodes` lists the linked nodes from
    head to tail; `Contents` is the sequence of processes they carry. */
module ReadyQueue {
  import opened Process

  /** One link of the queue: a process reference and the next link. */
  class Node {
    const pcb: PCB
    var next: Node?

    /** A fresh, unlinked node holding `pcb`. */
    constructor (pcb: PCB)
      ensures this.pcb == pcb && next == null
    {
      this.pcb := pcb;
      next := null;
    }
  }

  class Queue {
    var head: Node?
    var tail: Node?

    ghost var nodes: seq<Node>
    ghost var Contents: seq<PCB>
    ghost var Repr: set<Node>

    /** The links form one acyclic chain from `head` to `tail`, and `head` is
        absent exactly when `tail` is. */
    ghost predicate Valid()
      reads this, Repr
    {
      |nodes| == |Contents| &&
      (forall i :: 0 <= i < |nodes| ==> nodes[i] in Repr) &&
      (forall i, j :: 0 <= i < j < |nodes| ==> nodes[i] != nodes[j]) &&
      (forall i :: 0 <= i < |nodes| ==> nodes[i].pcb == Contents[i]) &&
      (forall i :: 0 <= i < |nodes| - 1 ==> nodes[i].next == nodes[i + 1]) &&
      (head == null <==> nodes == []) &&
      (tail == null <==> nodes == []) &&
      (nodes != [] ==> head == nodes[0] && tail == nodes[|nodes| - 1] && tail.next == null)
    }

    constructor ()
      ensures Valid() && Contents == [] && Repr == {}
    {
      head, tail := null, null;
      nodes, Contents, Repr := [], [], {};
    }

    /** Empties the queue: both pointers become absent. */
    method Reset()
      modifies this
      ensures Valid() && Contents == [] && Repr == {}
      ensures head == null && tail == null
    {
      head := null;
      tail := null;
      nodes, Contents, Repr := [], [], {};
    }

    /** The emptiness test: both pointers are absent, which for a valid
        queue is the same as either one being absent. */
    function IsEmpty(): (b: bool)
      reads this, Repr
      requires Valid()
      ensures b <==> Contents == []
      ensures b <==> head == null
      ensures b <==> tail == null
    {
      head == null && tail == null
    }

    /** Links the unlinked node `n` after the tail. */
    method Append(n: Node)
      requires Valid() && n !in Repr && n.next == null
      modifies this, Repr
      ensures Valid()
      ensures Contents == old(Contents) + [n.pcb]
      ensures Repr == old(Repr) + {n}
      ensures tail == n
      ensures old(Contents) == [] ==> head == n
      ensures old(Contents) != [] ==> head == old(head)
    {
      if IsEmpty() {
        head := n;
        tail := n;
      } else {
        tail.next := n;
        tail := n;
      }
      nodes, Contents, Repr := nodes + [n], Contents + [n.pcb], Repr + {n};
    }

    /** Unlinks the head and returns its process, or null when the queue is
        empty. A single-element queue goes back to the fully empty state. */
    method Dequeue() returns (p: PCB?)
      requires Valid()
      modifies this
      ensures Valid()
      ensures Repr <= old(Repr)
      ensures old(Contents) == [] ==> p == null && Contents == [] && Repr == old(Repr)
      ensures old(Contents) != [] ==> p == old(Contents)[0] && Contents == old(Contents)[1..]
      ensures |old(Contents)| == 1 ==> head == null && tail == null
    {
      if IsEmpty() {
        p := null;
      } else if head == tail {
        p := head.pcb;
        Reset();
      } else {
        assert |nodes| >= 2 && nodes[0].next == nodes[1];
        var first := head;
        p := first.pcb;
        head := first.next;
        nodes, Contents, Repr := nodes[1..], Contents[1..], Repr - {first};
      }
    }

    /** Scans the chain from the head for a process with the identifier of
        `p`. The source's do-while loop is entered only on a non-empty queue,
        so its first test always holds; here the test comes first. */
    method Contains(p: PCB) returns (found: bool)
      requires Valid()
      ensures found <==> HasId(Contents, p.id)
    {
      found := false;
      if !IsEmpty() {
        var cur := head;
        ghost var k := 0;
        while cur != null && !found
          invariant 0 <= k <= |nodes|
          invariant cur == (if k < |nodes| then nodes[k] else null)
          invariant found ==> k < |nodes| && Contents[k].id == p.id
          invariant !found ==> forall j :: 0 <= j < k ==> Contents[j].id != p.id
          decreases |nodes| - k, !found
        {
          if cur.pcb.id != p.id {
            cur := cur.next;
            k := k + 1;
          } else {
            found := true;
          }
        }
      }
    }
  }
}
