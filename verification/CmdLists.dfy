/** cmdfreeq and cmdpendingq as the driver has them: two rings through the list heads that are
    embedded in the ten command nodes. */
module CmdLists {
  import opened Options
  import opened LbsState
  import opened ListHead

  predicate NoRepeats(ns: seq<Node>) {
    forall i, j :: 0 <= i < j < |ns| ==> ns[i] != ns[j]
  }

  /** list_del takes out the one place where n stands. */
  lemma {:induction false} RemoveAt(ns: seq<Node>, n: Node, k: nat)
    requires NoRepeats(ns) && k < |ns| && ns[k] == n
    ensures Remove(ns, n) == ns[..k] + ns[k + 1..]
  {
    if k == 0 {
    } else {
      assert ns[0] != n;
      RemoveAt(ns[1..], n, k - 1);
      assert ns[1..][..k - 1] == ns[1..k] && [ns[0]] + ns[1..k] == ns[..k];
    }
  }

  /** The neighbours of the head and of each entry belong to the same ring. */
  lemma Neighbours(head: ListNode, xs: seq<ListNode>)
    requires IsList(head, xs)
    ensures head.next in [head] + xs && head.prev in [head] + xs
    ensures forall k :: 0 <= k < |xs| ==> xs[k].next in [head] + xs && xs[k].prev in [head] + xs
  {
    forall k | 0 <= k < |xs| ensures xs[k].next in [head] + xs && xs[k].prev in [head] + xs {
      assert xs[k].next == if k + 1 < |xs| then xs[k + 1] else head;
      assert xs[k].prev == if k > 0 then xs[k - 1] else head;
    }
  }

  predicate Apart(entry: ListNode, head: ListNode, xs: seq<ListNode>) {
    entry != head && entry !in xs
  }

  /** Add an entry to one list without touching another one. */
  method AddBeside(entry: ListNode, head: ListNode, ghost xs: seq<ListNode>, ghost other: ListNode,
          ghost ys: seq<ListNode>)
    requires IsList(head, xs) && IsList(other, ys) && ListHead.Disjoint(head, xs, other, ys)
    requires Apart(entry, head, xs) && Apart(entry, other, ys)
    modifies entry, head, xs
    ensures IsList(head, [entry] + xs) && IsList(other, ys)
  {
    Neighbours(head, xs);
    ListAdd(entry, head, xs);
  }

  method AddTailBeside(entry: ListNode, head: ListNode, ghost xs: seq<ListNode>, ghost other: ListNode,
          ghost ys: seq<ListNode>)
    requires IsList(head, xs) && IsList(other, ys) && ListHead.Disjoint(head, xs, other, ys)
    requires Apart(entry, head, xs) && Apart(entry, other, ys)
    modifies entry, head, xs
    ensures IsList(head, xs + [entry]) && IsList(other, ys)
  {
    Neighbours(head, xs);
    ListAddTail(entry, head, xs);
  }

  /** Unlink an entry from one list without touching another one. */
  method DelBeside(entry: ListNode, ghost head: ListNode, ghost xs: seq<ListNode>, ghost k: nat,
          ghost other: ListNode, ghost ys: seq<ListNode>)
    requires IsList(head, xs) && IsList(other, ys) && ListHead.Disjoint(head, xs, other, ys)
    requires k < |xs| && xs[k] == entry
    modifies head, xs
    ensures IsList(head, xs[..k] + xs[k + 1..]) && IsList(other, ys)
  {
    Neighbours(head, xs);
    ListDel(entry, head, xs, k);
  }

  /** Unlink the first entry of one list without touching another one. */
  method DelFirstBeside(entry: ListNode, ghost head: ListNode, ghost xs: seq<ListNode>, ghost other: ListNode,
          ghost ys: seq<ListNode>)
    requires IsList(head, xs) && IsList(other, ys) && ListHead.Disjoint(head, xs, other, ys)
    requires xs != [] && xs[0] == entry
    modifies head, xs
    ensures IsList(head, xs[1..]) && IsList(other, ys)
  {
    hide IsList, ListHead.Disjoint;
    DelBeside(entry, head, xs, 0, other, ys);
    assert xs[..0] + xs[0 + 1..] == xs[1..];
  }

  class CommandQueues {
    const cmdfreeq: ListNode
    const cmdpendingq: ListNode
    const list: seq<ListNode>  // the list member of each node in cmd_array

    /** The list heads of some nodes. */
    function At(ns: seq<Node>): (xs: seq<ListNode>)
      requires |list| == NUM_CMD_BUFFERS
      ensures |xs| == |ns| && forall i :: 0 <= i < |xs| ==> xs[i] == list[ns[i]]
    {
      seq(|ns|, i requires 0 <= i < |ns| => list[ns[i]])
    }

    /** The heads and the ten entries are different objects, and each entry knows its node. */
    ghost predicate Layout() {
      && |list| == NUM_CMD_BUFFERS && Distinct(list) && cmdfreeq != cmdpendingq
      && cmdfreeq !in list && cmdpendingq !in list
      && forall n: Node :: list[n].owner == n
    }

    /** The rings hold these nodes. */
    ghost predicate Linked(free: seq<Node>, pending: seq<Node>)
      reads cmdfreeq, cmdpendingq, list
    {
      && Layout() && IsList(cmdfreeq, At(free)) && IsList(cmdpendingq, At(pending))
      && forall n :: n in free ==> n !in pending
    }

    lemma LinkedNoRepeats(free: seq<Node>, pending: seq<Node>)
      requires Linked(free, pending)
      ensures NoRepeats(free) && NoRepeats(pending)
    {
      forall i, j | 0 <= i < j < |free| ensures free[i] != free[j] { assert At(free)[i] != At(free)[j]; }
      forall i, j | 0 <= i < j < |pending| ensures pending[i] != pending[j] { assert At(pending)[i] != At(pending)[j]; }
    }

    /** Different nodes have different list heads. */
    lemma AtApart(n: Node, ns: seq<Node>)
      requires Layout()
      ensures list[n] in At(ns) <==> n in ns
      ensures list[n] != cmdfreeq && list[n] != cmdpendingq
    {
      if list[n] in At(ns) {
        var i :| 0 <= i < |ns| && At(ns)[i] == list[n];
        assert ns[i] == n;
      }
      if n in ns {
        var i :| 0 <= i < |ns| && ns[i] == n;
        assert At(ns)[i] == list[n];
      }
    }

    lemma AtPrepend(ns: seq<Node>, n: Node)
      requires |list| == NUM_CMD_BUFFERS
      ensures [list[n]] + At(ns) == At([n] + ns)
    {
      var xs := At([n] + ns);
      assert forall i :: 0 < i <= |ns| ==> xs[i] == At(ns)[i - 1];
    }

    lemma AtAppend(ns: seq<Node>, n: Node)
      requires |list| == NUM_CMD_BUFFERS
      ensures At(ns) + [list[n]] == At(ns + [n])
    {
      var xs := At(ns + [n]);
      assert forall i :: 0 <= i < |ns| ==> xs[i] == At(ns)[i];
    }

    lemma AtRemove(ns: seq<Node>, k: nat)
      requires |list| == NUM_CMD_BUFFERS && k < |ns|
      ensures At(ns)[..k] + At(ns)[k + 1..] == At(ns[..k] + ns[k + 1..]) && At(ns)[k] == list[ns[k]]
    {
    }

    lemma WithoutFirst(free: seq<Node>, pending: seq<Node>)
      requires |list| == NUM_CMD_BUFFERS && free != [] && forall n :: n in free ==> n !in pending
      ensures At(free)[1..] == At(free[1..]) && At(free)[0] == list[free[0]]
      ensures forall n :: n in free[1..] ==> n !in pending
    {
    }

    lemma AtInList(ns: seq<Node>)
      requires |list| == NUM_CMD_BUFFERS
      ensures forall x :: x in At(ns) ==> x in list
    {
    }

    /** The rings of two disjoint sets of nodes have no list head in common. */
    lemma RingsApart(free: seq<Node>, pending: seq<Node>)
      requires Linked(free, pending)
      ensures ListHead.Disjoint(cmdfreeq, At(free), cmdpendingq, At(pending))
    {
      forall i, j | 0 <= i < |free| && 0 <= j < |pending| ensures At(free)[i] != At(pending)[j] {
        assert free[i] in free && pending[j] in pending;
      }
    }

    /** lbs_allocate_cmd_buffer: the ten nodes enter the free queue in turn. */
    constructor ()
      ensures Linked([0, 1, 2, 3, 4, 5, 6, 7, 8, 9], [])
      ensures fresh(cmdfreeq) && fresh(cmdpendingq) && forall x :: x in list ==> fresh(x)
    {
      var free := new ListNode(0);
      var pending := new ListNode(0);
      var nodes: seq<ListNode> := [];
      var i := 0;
      while i < NUM_CMD_BUFFERS
        invariant 0 <= i <= NUM_CMD_BUFFERS && |nodes| == i && free != pending
        invariant fresh(free) && fresh(pending) && (forall x :: x in nodes ==> fresh(x) && x != pending)
        invariant IsList(free, nodes) && IsList(pending, [])
        invariant forall k :: 0 <= k < i ==> nodes[k].owner == k
      {
        var x := new ListNode(i);
        ListAddTail(x, free, nodes);
        nodes := nodes + [x];
        i := i + 1;
      }
      cmdfreeq, cmdpendingq, list := free, pending, nodes;
      new;
      assert At([0, 1, 2, 3, 4, 5, 6, 7, 8, 9]) == list;
      assert At([]) == [];
    }

    /** lbs_get_cmd_ctrl_node: the first entry of the free queue is unlinked. */
    method TakeFree(ghost free: seq<Node>, ghost pending: seq<Node>) returns (n: Option<Node>)
      requires Linked(free, pending)
      modifies cmdfreeq, list
      ensures n == if free == [] then None else Some(free[0])
      ensures Linked(if free == [] then free else free[1..], pending)
    {
      FirstOf(cmdfreeq, free);
      RingsApart(free, pending);
      LinkedNoRepeats(free, pending);
      hide IsList, Distinct, ListHead.Disjoint, NoRepeats;
      if ListEmpty(cmdfreeq) { return None; }
      var entry := cmdfreeq.next;
      n := Some(entry.owner);
      WithoutFirst(free, pending);
      AtInList(free);
      hide At;
      DelFirstBeside(entry, cmdfreeq, At(free), cmdpendingq, At(pending));
    }

    /** What the head of a ring says about its first entry. */
    lemma FirstOf(head: ListNode, ns: seq<Node>)
      requires Layout() && IsList(head, At(ns))
      ensures ListEmpty(head) <==> ns == []
      ensures ns != [] ==> head.next == list[ns[0]] && head.next.owner == ns[0]
    {
    }

    /** list_add_tail to the free queue. */
    method PutFree(n: Node, ghost free: seq<Node>, ghost pending: seq<Node>)
      requires Linked(free, pending) && n !in free && n !in pending
      modifies cmdfreeq, list
      ensures Linked(free + [n], pending)
    {
      RingsApart(free, pending);
      AtApart(n, free);
      AtApart(n, pending);
      hide IsList, Distinct, ListHead.Disjoint;
      AddTailBeside(list[n], cmdfreeq, At(free), cmdpendingq, At(pending));
      AtAppend(free, n);
    }

    /** list_add or list_add_tail to the pending queue. */
    method Queue(n: Node, atHead: bool, ghost free: seq<Node>, ghost pending: seq<Node>)
      requires Linked(free, pending) && n !in free && n !in pending
      modifies cmdpendingq, list
      ensures Linked(free, if atHead then [n] + pending else pending + [n])
    {
      RingsApart(free, pending);
      Swapped(cmdfreeq, At(free), cmdpendingq, At(pending));
      AtApart(n, free);
      AtApart(n, pending);
      hide IsList, Distinct, ListHead.Disjoint;
      AtPrepend(pending, n);
      AtAppend(pending, n);
      AtInList(pending);
      hide At;
      if atHead { AddBeside(list[n], cmdpendingq, At(pending), cmdfreeq, At(free)); }
      else { AddTailBeside(list[n], cmdpendingq, At(pending), cmdfreeq, At(free)); }
    }

    /** list_del from the pending queue, wherever the node stands in it. */
    method Unqueue(n: Node, ghost free: seq<Node>, ghost pending: seq<Node>)
      requires Linked(free, pending) && n in pending
      modifies cmdpendingq, list
      ensures Linked(free, Remove(pending, n))
    {
      RingsApart(free, pending);
      Swapped(cmdfreeq, At(free), cmdpendingq, At(pending));
      LinkedNoRepeats(free, pending);
      hide IsList, Distinct, ListHead.Disjoint, Remove;
      ghost var k :| 0 <= k < |pending| && pending[k] == n;
      RemoveAt(pending, n, k);
      AtRemove(pending, k);
      AtInList(pending);
      RestApart(free, pending, k);
      hide At, NoRepeats;
      DelBeside(list[n], cmdpendingq, At(pending), k, cmdfreeq, At(free));
    }

    /** The head of the pending queue, which stays where it is. */
    method FirstPending(ghost free: seq<Node>, ghost pending: seq<Node>) returns (n: Option<Node>)
      requires Linked(free, pending)
      ensures n == if pending == [] then None else Some(pending[0])
    {
      FirstOf(cmdpendingq, pending);
      if ListEmpty(cmdpendingq) { return None; }
      n := Some(cmdpendingq.next.owner);
    }
  }

  lemma RestApart(these: seq<Node>, others: seq<Node>, k: nat)
    requires k < |others| && forall n :: n in these ==> n !in others
    ensures forall n :: n in these ==> n !in others[..k] + others[k + 1..]
  {
  }

  lemma Swapped(head: ListNode, xs: seq<ListNode>, other: ListNode, ys: seq<ListNode>)
    requires ListHead.Disjoint(head, xs, other, ys)
    ensures ListHead.Disjoint(other, ys, head, xs)
  {
  }
}
