/** The list surgery that compat.h adds for kernels before 2.6.27: circular, doubly linked
    lists whose head is one more node of the ring. */
module ListHead {

  /** struct list_head; owner is the number of the object in which an entry is embedded, as
      container_of finds it. */
  class ListNode {
    const owner: nat
    var next: ListNode
    var prev: ListNode

    /** INIT_LIST_HEAD. */
    constructor (owner: nat)
      ensures IsList(this, []) && this.owner == owner
    {
      this.owner := owner;
      next, prev := this, this;
    }
  }

  predicate Distinct(xs: seq<ListNode>) {
    forall i, j :: 0 <= i < j < |xs| ==> xs[i] != xs[j]
  }

  /** The nodes of xs are linked in this order, forwards and backwards. */
  ghost predicate Chain(xs: seq<ListNode>)
    reads xs
  {
    && (forall i :: 0 <= i < |xs| - 1 ==> xs[i].next == xs[i + 1])
    && (forall i :: 0 < i < |xs| ==> xs[i].prev == xs[i - 1])
  }

  /** The list of head consists of the entries xs: from the last one the links lead back to head. */
  ghost predicate IsList(head: ListNode, xs: seq<ListNode>)
    reads head, xs
  {
    && head !in xs && Distinct(xs) && Chain(xs)
    && if xs == [] then head.next == head && head.prev == head
       else head.next == xs[0] && xs[0].prev == head && head.prev == xs[|xs| - 1] && xs[|xs| - 1].next == head
  }

  predicate Disjoint(head: ListNode, xs: seq<ListNode>, other: ListNode, ys: seq<ListNode>) {
    && head != other && head !in ys && other !in xs
    && forall i, j :: 0 <= i < |xs| && 0 <= j < |ys| ==> xs[i] != ys[j]
  }

  predicate ListEmpty(head: ListNode)
    reads head
  {
    head.next == head
  }

  predicate ListIsSingular(head: ListNode)
    reads head
  {
    !ListEmpty(head) && head.next == head.prev
  }

  lemma {:induction false} EntriesAgree(head: ListNode, xs: seq<ListNode>, ys: seq<ListNode>, k: nat)
    requires IsList(head, xs) && IsList(head, ys) && k <= |xs|
    ensures k <= |ys| && xs[..k] == ys[..k]
  {
    if k == 0 {
    } else {
      EntriesAgree(head, xs, ys, k - 1);
      if k > 1 {
        assert xs[k - 2] == xs[..k - 1][k - 2] == ys[..k - 1][k - 2] == ys[k - 2];
        assert xs[k - 2].next == xs[k - 1];
      }
      assert xs[..k] == xs[..k - 1] + [xs[k - 1]] && ys[..k] == ys[..k - 1] + [ys[k - 1]];
    }
  }

  /** The links of a list determine its entries and their order. */
  lemma OneListPerHead(head: ListNode, xs: seq<ListNode>, ys: seq<ListNode>)
    requires IsList(head, xs) && IsList(head, ys)
    ensures xs == ys
  {
    EntriesAgree(head, xs, ys, |xs|);
    EntriesAgree(head, ys, xs, |ys|);
    assert xs[..|xs|] == xs && ys[..|ys|] == ys;
  }

  /** list_empty and list_is_singular answer as their names say. */
  lemma LengthTests(head: ListNode, xs: seq<ListNode>)
    requires IsList(head, xs)
    ensures ListEmpty(head) <==> xs == []
    ensures ListIsSingular(head) <==> |xs| == 1
  {
  }

  /** list_add: a new first entry. */
  method ListAdd(entry: ListNode, head: ListNode, ghost xs: seq<ListNode>)
    requires IsList(head, xs) && entry != head && entry !in xs
    modifies entry, head, head.next
    ensures IsList(head, [entry] + xs)
  {
    var next := head.next;
    next.prev := entry;
    entry.next := next;
    entry.prev := head;
    head.next := entry;
  }

  /** list_add_tail: a new last entry. */
  method ListAddTail(entry: ListNode, head: ListNode, ghost xs: seq<ListNode>)
    requires IsList(head, xs) && entry != head && entry !in xs
    modifies entry, head, head.prev
    ensures IsList(head, xs + [entry])
  {
    var prev := head.prev;
    head.prev := entry;
    entry.next := head;
    entry.prev := prev;
    prev.next := entry;
  }

  /** list_del: the neighbours of an entry are linked to each other. */
  method ListDel(entry: ListNode, ghost head: ListNode, ghost xs: seq<ListNode>, ghost k: nat)
    requires IsList(head, xs) && k < |xs| && xs[k] == entry
    modifies entry.next, entry.prev
    ensures IsList(head, xs[..k] + xs[k + 1..])
  {
    assert entry.prev == if k > 0 then xs[k - 1] else head;
    assert entry.next == if k + 1 < |xs| then xs[k + 1] else head;
    entry.next.prev := entry.prev;
    entry.prev.next := entry.next;
  }

  /** __list_cut_position. */
  method CutPosition(list: ListNode, head: ListNode, entry: ListNode, ghost xs: seq<ListNode>, ghost k: nat)
    requires IsList(head, xs) && k < |xs| && xs[k] == entry && list != head && list !in xs
    modifies list, head, head.next, entry, entry.next
    ensures IsList(list, xs[..k + 1]) && IsList(head, xs[k + 1..])
  {
    assert k + 1 < |xs| ==> xs[k].next == xs[k + 1] && xs[k + 1].prev == xs[k];
    var newFirst := entry.next;
    list.next := head.next;
    list.next.prev := list;
    list.prev := entry;
    entry.next := list;
    head.next := newFirst;
    newFirst.prev := head;
  }

  /** list_cut_position: the entries up to entry move to list.  An entry that is the head
      itself empties list, unless head is empty: then list is not even initialised. */
  method ListCutPosition(list: ListNode, head: ListNode, entry: ListNode, ghost xs: seq<ListNode>, ghost k: nat)
    requires IsList(head, xs) && list != head && list !in xs
    requires |xs| <= 1 || entry == head || entry in xs
    requires entry in xs ==> k < |xs| && xs[k] == entry
    modifies list, head, head.next, entry, entry.next
    ensures entry in xs ==> IsList(list, xs[..k + 1]) && IsList(head, xs[k + 1..])
    ensures entry !in xs ==> IsList(head, xs)
    ensures entry == head && xs != [] ==> IsList(list, [])
    ensures entry == head ==> (ListEmpty(list) <==> xs != [] || old(ListEmpty(list)))
    ensures entry !in xs && (entry != head || xs == []) ==> unchanged(list)
  {
    if ListEmpty(head) { return; }
    if ListIsSingular(head) && head.next != entry && head != entry { return; }
    if entry == head {
      list.next, list.prev := list, list;
    } else {
      CutPosition(list, head, entry, xs, k);
    }
  }

  /** __list_splice, as of 2.6.27, between the last entry of a list and its head. */
  method CompatListSplice(list: ListNode, prev: ListNode, next: ListNode, ghost ys: seq<ListNode>,
          ghost xs: seq<ListNode>)
    requires IsList(list, ys) && ys != [] && IsList(next, xs) && prev == next.prev && Disjoint(list, ys, next, xs)
    modifies list.next, list.prev, prev, next
    ensures IsList(next, xs + ys)
    ensures list.next == ys[0] && list.prev == ys[|ys| - 1]
  {
    var first, last := list.next, list.prev;
    first.prev := prev;
    prev.next := first;
    last.next := next;
    next.prev := last;
  }

  /** list_splice_tail: list itself keeps pointing at the entries it gave away. */
  method ListSpliceTail(list: ListNode, head: ListNode, ghost ys: seq<ListNode>, ghost xs: seq<ListNode>)
    requires IsList(list, ys) && IsList(head, xs) && Disjoint(list, ys, head, xs)
    modifies list.next, list.prev, head.prev, head
    ensures IsList(head, xs + ys)
    ensures ys != [] ==> list.next == ys[0] && list.prev == ys[|ys| - 1]
  {
    if !ListEmpty(list) {
      CompatListSplice(list, head.prev, head, ys, xs);
    } else {
      assert xs + ys == xs;
    }
  }

  /** list_splice_tail_init. */
  method ListSpliceTailInit(list: ListNode, head: ListNode, ghost ys: seq<ListNode>, ghost xs: seq<ListNode>)
    requires IsList(list, ys) && IsList(head, xs) && Disjoint(list, ys, head, xs)
    modifies list, list.next, list.prev, head.prev, head
    ensures IsList(head, xs + ys) && IsList(list, [])
  {
    if !ListEmpty(list) {
      CompatListSplice(list, head.prev, head, ys, xs);
      assert list !in xs + ys;
      list.next, list.prev := list, list;
    } else {
      assert xs + ys == xs;
    }
  }

  /** Cut a list anywhere and splice the rest behind the part that was cut off: list then
      holds the entries in their old order, and head is empty. */
  method CutThenSplice(list: ListNode, head: ListNode, entry: ListNode, ghost xs: seq<ListNode>, ghost k: nat)
    requires IsList(head, xs) && list != head && list !in xs && k < |xs| && xs[k] == entry
    modifies list, head, xs
    ensures IsList(list, xs) && IsList(head, [])
  {
    assert k + 1 < |xs| ==> xs[k].next == xs[k + 1];
    ListCutPosition(list, head, entry, xs, k);
    assert xs[..k + 1] + xs[k + 1..] == xs;
    ListSpliceTailInit(head, list, xs[k + 1..], xs[..k + 1]);
  }
}
