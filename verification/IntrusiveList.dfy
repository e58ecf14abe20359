/** The submission list in place, as its owner sees it: links that try_pop_all reverses one by one. */
module IntrusiveList {

  class Node<T> {
    var data: T
    var next: Node?<T>

    constructor (x: T)
      ensures data == x && next == null
    {
      data, next := x, null;
    }
  }

  ghost function Nth<T>(nodes: seq<Node<T>>, i: int): Node?<T> {
    if 0 <= i < |nodes| then nodes[i] else null
  }

  /** Following the links from start visits exactly these nodes. */
  ghost predicate Chain<T>(start: Node?<T>, nodes: seq<Node<T>>)
    reads nodes
  {
    && start == Nth(nodes, 0)
    && (forall i :: 0 <= i < |nodes| ==> nodes[i].next == Nth(nodes, i + 1))
    && (forall i, j :: 0 <= i < j < |nodes| ==> nodes[i] != nodes[j])
  }

  ghost function Backwards<T>(all: seq<Node<T>>): (r: seq<Node<T>>)
    ensures |r| == |all| && forall i :: 0 <= i < |all| ==> r[i] == all[|all| - 1 - i]
  {
    seq(|all|, i requires 0 <= i < |all| => all[|all| - 1 - i])
  }

  /** Links turned round make the reversed chain. */
  lemma TurnedChain<T>(first: Node?<T>, all: seq<Node<T>>)
    requires first == Nth(all, |all| - 1)
    requires forall i :: 0 <= i < |all| ==> all[i].next == Nth(all, i - 1)
    requires forall i, j :: 0 <= i < j < |all| ==> all[i] != all[j]
    ensures Chain(first, Backwards(all))
  {
    var r := Backwards(all);
    forall i | 0 <= i < |r| ensures r[i].next == Nth(r, i + 1) { assert r[i] == all[|all| - 1 - i]; }
    forall i, j | 0 <= i < j < |r| ensures r[i] != r[j] {
      assert r[i] == all[|all| - 1 - i] && r[j] == all[|all| - 1 - j];
    }
  }

  class List<T> {
    var head: Node?<T>
    ghost var nodes: seq<Node<T>>   // newest first

    ghost predicate Valid()
      reads this, nodes
    {
      Chain(head, nodes)
    }

    constructor ()
      ensures Valid() && nodes == []
    {
      head, nodes := null, [];
    }

    /** A push whose first compare-and-swap succeeds. */
    method Push(n: Node<T>)
      requires Valid() && n !in nodes && n.next == null
      modifies this, n`next
      ensures Valid() && nodes == [n] + old(nodes)
    {
      n.next := head;
      head, nodes := n, [n] + nodes;
    }

    /** Take everything; the result is linked oldest first. */
    method TryPopAll() returns (first: Node?<T>, ghost batch: seq<Node<T>>)
      requires Valid()
      modifies this, nodes
      ensures Valid() && nodes == [] && Chain(first, batch)
      ensures batch == Backwards(old(nodes)) && forall n :: n in old(nodes) ==> n.data == old(n.data)
    {
      ghost var all := nodes;
      var last := head;
      head, nodes := null, [];
      first := null;
      ghost var k := 0;
      while last != null
        invariant 0 <= k <= |all| && head == null && nodes == []
        invariant last == Nth(all, k)
        invariant first == Nth(all, k - 1)
        invariant forall i :: k <= i < |all| ==> all[i].next == Nth(all, i + 1)
        invariant forall i :: 0 <= i < k ==> all[i].next == Nth(all, i - 1)
        invariant forall n :: n in all ==> n.data == old(n.data)
        decreases |all| - k
      {
        var tmp := last;
        last := last.next;
        tmp.next := first;
        first := tmp;
        k := k + 1;
      }
      batch := Backwards(all);
      TurnedChain(first, all);
    }
  }
}
