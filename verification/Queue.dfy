/** The intrusive singly linked queue: every item carries its own link. */
module Queues {
  import opened Seqs

  /** The link of an item: not queued at all, the last one, or followed by one. */
  datatype Link<T> = NotInQueue | Last | Then(item: Item<T>)

  /** The item a link leads to. */
  function ItemOf<T>(l: Link<T>): Item?<T>
  {
    if l.Then? then l.item else null
  }

  /** `owner` is the structure the item is part of. */
  class Item<T> {
    const owner: T
    var next: Link<T>

    constructor (owner: T)
      ensures next == NotInQueue && this.owner == owner
    {
      this.owner, next := owner, NotInQueue;
    }

    predicate InQueue()
      reads this
    {
      next != NotInQueue
    }
  }

  class Queue<T> {
    var head: Item?<T>
    var tail: Item?<T>
    /** The queued items, oldest first. */
    ghost var Items: seq<Item<T>>

    ghost predicate Valid()
      reads this, Items
    {
      && (forall i, j | 0 <= i < j < |Items| :: Items[i] != Items[j])
      && (forall i, j | 0 <= i < |Items| && 0 <= j < |Items| && j == i + 1 :: Items[i].next == Then(Items[j]))
      && (forall k | 0 <= k < |Items| :: Items[k].InQueue())
      && (Items != [] ==> Items[|Items| - 1].next == Last)
      && if Items == [] then head == null && tail == null
         else head == Items[0] && tail == Items[|Items| - 1]
    }

    lemma LinkAt(k: nat)
      requires Valid() && k < |Items|
      ensures Items[k].next == if k + 1 < |Items| then Then(Items[k + 1]) else Last
    {
    }

    lemma HeadIs()
      requires Valid()
      ensures head == if Items != [] then Items[0] else null
    {
    }

    lemma QueuedAre()
      requires Valid()
      ensures forall x | x in Items :: x.InQueue()
    {
    }

    lemma WithoutNone(item: Item<T>)
      ensures item !in Items ==> Without(Items, item) == Items
    {
    }

    /** A queue none of whose items was written is as it was. */
    twostate lemma Untouched()
      requires old(Valid()) && unchanged(this) && forall x | x in Items :: unchanged(x)
      ensures Valid()
    {
      assert forall k | 0 <= k < |Items| :: Items[k] in Items;
    }

    constructor ()
      ensures Valid() && Items == []
    {
      head, tail, Items := null, null, [];
    }

    method Empty() returns (empty: bool)
      requires Valid()
      ensures empty <==> Items == []
    {
      empty := head == null;
    }

    /** Only an item that is on no queue may be pushed. */
    method Push(item: Item<T>)
      requires Valid() && !item.InQueue()
      modifies this, item, tail
      ensures Valid() && Items == old(Items) + [item]
    {
      assert item !in Items;
      item.next := Last;
      if head == null {
        head := item;
      }
      if tail != null {
        tail.next := Then(item);
      }
      tail := item;
      Items := Items + [item];
    }

    method Pop() returns (result: Item?<T>)
      requires Valid()
      modifies this, head
      ensures Valid()
      ensures old(Items) == [] ==> result == null && Items == []
      ensures old(Items) != [] ==> result == old(Items)[0] && Items == old(Items)[1..] && !result.InQueue()
    {
      if head == null {
        return null;
      }
      LinkAt(0);
      result := head;
      head := ItemOf(result.next);
      if head == null {
        tail := null;
      }
      result.next := NotInQueue;
      Items := Items[1..];
    }

    /** Take an item out wherever it is; an item of another queue is left alone. */
    method Remove(item: Item<T>)
      requires Valid()
      modifies this, Items
      ensures Valid() && Items == Without(old(Items), item)
      ensures item in old(Items) ==> !item.InQueue()
      ensures item !in old(Items) ==> item.next == old(item.next)
    {
      hide Without, Valid;
      QueuedAre();
      WithoutNone(item);
      if !item.InQueue() {
        return;
      }
      var it, prev;
      ghost var k;
      it, prev, k := Seek(item);
      if it != null {
        WithoutAt(Items, k);
        Unlink(it, prev, k);
      }
    }

    /** The walk to an item and to what is in front of it. */
    method Seek(item: Item<T>) returns (it: Item?<T>, prev: Item?<T>, ghost k: nat)
      requires Valid()
      ensures k <= |Items| && item !in Items[..k]
      ensures it == if k < |Items| then item else null
      ensures k < |Items| ==> Items[k] == item
      ensures prev == if k > 0 then Items[k - 1] else null
      ensures it == null ==> item !in Items
    {
      hide Valid;
      HeadIs();
      prev, it, k := null, head, 0;
      while it != null && it != item
        invariant 0 <= k <= |Items| && item !in Items[..k]
        invariant it == if k < |Items| then Items[k] else null
        invariant prev == if k > 0 then Items[k - 1] else null
        decreases |Items| - k
      {
        LinkAt(k);
        assert Items[..k + 1] == Items[..k] + [it];
        prev := it;
        it := ItemOf(it.next);
        k := k + 1;
      }
      assert k == |Items| ==> Items[..k] == Items;
    }

    method Unlink(it: Item<T>, prev: Item?<T>, ghost k: nat)
      requires Valid() && k < |Items| && it == Items[k]
      requires prev == if k > 0 then Items[k - 1] else null
      modifies this, it, prev
      ensures Valid() && Items == old(Items[..k] + Items[k + 1..]) && !it.InQueue()
    {
      LinkAt(k);
      if k > 0 {
        LinkAt(k - 1);
      }
      ghost var s := Items;
      if head == it {
        head := ItemOf(it.next);
      }
      if tail == it {
        tail := prev;
      }
      if prev != null {
        prev.next := it.next;
      }
      it.next := NotInQueue;
      Items := Items[..k] + Items[k + 1..];
      Close(s, k);
    }

    /** The two halves of a queue, the first linked to the second. */
    lemma Close(s: seq<Item<T>>, k: nat)
      requires k < |s| && Items == s[..k] + s[k + 1..]
      requires forall i, j | 0 <= i < j < |s| :: s[i] != s[j]
      requires forall i, j | 0 <= i < |s| && 0 <= j < |s| && j == i + 1 && i != k && j != k :: s[i].next == Then(s[j])
      requires k > 0 ==> s[k - 1].next == if k + 1 < |s| then Then(s[k + 1]) else Last
      requires k + 1 < |s| ==> s[|s| - 1].next == Last && tail == s[|s| - 1]
      requires k + 1 == |s| ==> tail == if k > 0 then s[k - 1] else null
      requires head == if k > 0 then s[0] else if |s| > 1 then s[1] else null
      requires forall m | 0 <= m < |s| && m != k :: s[m].InQueue()
      ensures Valid()
    {
    }

    /** The copy of the queue's head and tail into an empty queue, the other queue
        being initialised anew. */
    method TakeFrom(other: Queue<T>)
      requires this != other && other.Valid()
      modifies this, other
      ensures Valid() && Items == old(other.Items) && other.Valid() && other.Items == []
    {
      head, tail, Items := other.head, other.tail, other.Items;
      other.head, other.tail, other.Items := null, null, [];
    }
  }
}
