/** The poll set: two dense arrays, the slots of removed handles threaded into a
    free list, and the compaction that runs before every poll. */
module Pollers {
  import opened Outcome

  /** The revents bits of a slot; `err` stands for every bit but POLLIN and POLLOUT. */
  datatype Revents = Revents(inn: bool, out: bool, err: bool)

  const QUIET := Revents(false, false, false)

  datatype PollFd = PollFd(fd: int, wantIn: bool, wantOut: bool, revents: Revents)

  class Hndl {
    var index: int

    constructor ()
    {
      index := -1;
    }
  }

  datatype Item = Item(hndl: Hndl?, prev: int, next: int)

  datatype Kind = In | Out | Err

  datatype Event = NoEvent | Event(kind: Kind, hndl: Hndl)

  const GRANULARITY := 16

  // ---------- the free list ----------

  /** The list from `removed` along `next`: distinct slots in use no more, each
      with its predecessor in `prev`, except that the first one may still carry
      a predecessor outside the poll set. */
  ghost predicate FreeList(items: seq<Item>, size: int, removed: int, free: seq<int>)
  {
    && 0 <= size <= |items|
    && (forall k | 0 <= k < |free| :: 0 <= free[k] < size && items[free[k]].hndl == null)
    && (forall k, l | 0 <= k < l < |free| :: free[k] != free[l])
    && (forall k | 1 <= k < |free| :: Follows(items, free[k - 1], free[k]))
    && if free == [] then removed == -1
       else
         && removed == free[0] && items[free[|free| - 1]].next == -1
         && (items[free[0]].prev == -1 || size <= items[free[0]].prev < |items|)
  }

  /** No slot is lost: an unused one is on the list. */
  ghost predicate AllListed(items: seq<Item>, size: int, free: seq<int>)
    requires 0 <= size <= |items|
  {
    forall i | 0 <= i < size && items[i].hndl == null :: i in free
  }

  ghost predicate Follows(items: seq<Item>, i: int, j: int)
  {
    0 <= i < |items| && 0 <= j < |items| && items[i].next == j && items[j].prev == i
  }

  function SetPrev(items: seq<Item>, i: int, p: int): seq<Item>
    requires i == -1 || 0 <= i < |items|
  {
    if i == -1 then items else items[i := items[i].(prev := p)]
  }

  function SetNext(items: seq<Item>, i: int, n: int): seq<Item>
    requires i == -1 || 0 <= i < |items|
  {
    if i == -1 then items else items[i := items[i].(next := n)]
  }

  lemma PushFree(items: seq<Item>, size: int, removed: int, free: seq<int>, i: int)
    requires FreeList(items, size, removed, free) && 0 <= i < size && i !in free
    ensures FreeList(SetPrev(items, removed, i)[i := Item(null, -1, removed)], size, i, [i] + free)
  {
  }

  lemma NextOfFirst(items: seq<Item>, size: int, removed: int, free: seq<int>)
    requires FreeList(items, size, removed, free) && free != []
    ensures items[removed].next == if |free| > 1 then free[1] else -1
    ensures items[removed].next == -1 || 0 <= items[removed].next < size
  {
  }

  /** The popped slot is the last one. */
  lemma PopLast(items: seq<Item>, size: int, removed: int, free: seq<int>)
    requires FreeList(items, size, removed, free) && removed == size - 1 && free != []
    ensures var it := items[removed];
            && (it.prev == -1 || size <= it.prev < |items|) && (it.next == -1 || 0 <= it.next < size - 1)
            && FreeList(SetPrev(SetNext(items, it.prev, removed), it.next, removed), size - 1, it.next, free[1..])
  {
    NextOfFirst(items, size, removed, free);
    var it := items[removed];
    var items1 := SetPrev(SetNext(items, it.prev, removed), it.next, removed);
    var f := free[1..];
    forall k | 1 <= k < |f| ensures Follows(items1, f[k - 1], f[k]) {
      assert Follows(items, free[k], free[k + 1]);
    }
  }

  /** The slot moved from the end is in use. */
  lemma PopLive(items: seq<Item>, size: int, removed: int, free: seq<int>)
    requires FreeList(items, size, removed, free) && free != [] && removed != size - 1
    requires items[size - 1].hndl != null
    ensures var it := items[removed];
            && (it.next == -1 || 0 <= it.next < size - 1)
            && FreeList(SetPrev(items, it.next, -1)[removed := items[size - 1]], size - 1, it.next, free[1..])
  {
  }

  /** The items after a free slot moved from the end to the popped place. */
  function MoveFree(items: seq<Item>, size: int, removed: int): seq<Item>
    requires 0 <= removed < size <= |items|
    requires items[removed].next == -1 || 0 <= items[removed].next < |items|
    requires var it := SetPrev(items, items[removed].next, -1)[size - 1];
             (it.prev == -1 || 0 <= it.prev < |items|) && (it.next == -1 || 0 <= it.next < |items|)
  {
    var items1 := SetPrev(items, items[removed].next, -1);
    var moved := items1[size - 1];
    SetPrev(SetNext(items1[removed := moved], moved.prev, removed), moved.next, removed)
  }

  /** The neighbours of a free last slot. */
  lemma LastNeighbours(items: seq<Item>, size: int, removed: int, free: seq<int>, m: int)
    requires FreeList(items, size, removed, free)
    requires 1 <= m < |free| && free[m] == size - 1
    ensures removed == free[0] && 0 <= removed < size - 1 && items[removed].next == free[1]
    ensures items[size - 1].hndl == null && items[size - 1].prev == free[m - 1]
    ensures items[size - 1].next == if m + 1 < |free| then free[m + 1] else -1
  {
  }

  /** Links k - 1 to k of the list, after the move of its m-th slot. */
  lemma MovedLink(items: seq<Item>, size: int, removed: int, free: seq<int>, m: int, k: int)
    requires 1 <= m < |free| && free[m] == size - 1 && 2 <= k < |free| && 0 <= removed < size - 1 < |items|
    requires forall j | 0 <= j < |free| :: 0 <= free[j] < size
    requires forall i, j | 0 <= i < j < |free| :: free[i] != free[j]
    requires removed == free[0] && items[removed].next == free[1]
    requires items[size - 1].prev == free[m - 1]
    requires items[size - 1].next == if m + 1 < |free| then free[m + 1] else -1
    requires Follows(items, free[k - 1], free[k])
    ensures var f := free[m := removed]; Follows(MoveFree(items, size, removed), f[k - 1], f[k])
  {
  }

  /** The slots of the list after the move: distinct, free, and below the new end. */
  lemma MovedSlots(items: seq<Item>, size: int, removed: int, free: seq<int>, m: int)
    requires FreeList(items, size, removed, free)
    requires 1 <= m < |free| && free[m] == size - 1
    requires 0 <= removed < size - 1 && items[removed].next == free[1]
    requires items[size - 1].prev == free[m - 1] && items[size - 1].next == if m + 1 < |free| then free[m + 1] else -1
    ensures var items2, f := MoveFree(items, size, removed), free[m := removed][1..];
            && |items2| == |items|
            && (forall k | 0 <= k < |f| :: 0 <= f[k] < size - 1 && items2[f[k]].hndl == null)
            && (forall k, l | 0 <= k < l < |f| :: f[k] != f[l])
  {
  }

  /** Its two ends. */
  lemma MovedEnds(items: seq<Item>, size: int, removed: int, free: seq<int>, m: int)
    requires 1 <= m < |free| && free[m] == size - 1 && 0 <= removed < size - 1 < |items|
    requires forall j | 0 <= j < |free| :: 0 <= free[j] < size
    requires forall i, j | 0 <= i < j < |free| :: free[i] != free[j]
    requires removed == free[0] && items[removed].next == free[1] && items[free[|free| - 1]].next == -1
    requires items[size - 1].prev == free[m - 1] && items[size - 1].next == if m + 1 < |free| then free[m + 1] else -1
    ensures var items2, f := MoveFree(items, size, removed), free[m := removed][1..];
            && items2[f[|f| - 1]].next == -1
            && (items2[f[0]].prev == -1 || size - 1 <= items2[f[0]].prev < |items|)
  {
  }

  /** The slot moved from the end is itself free, and the list follows it. */
  lemma PopFree(items: seq<Item>, size: int, removed: int, free: seq<int>, m: int)
    requires FreeList(items, size, removed, free)
    requires 1 <= m < |free| && free[m] == size - 1
    ensures removed != size - 1 && 0 <= items[removed].next < size
    ensures var it := SetPrev(items, items[removed].next, -1)[size - 1];
            && (it.prev == -1 || 0 <= it.prev < size - 1) && (it.next == -1 || 0 <= it.next < size - 1)
            && it.prev != removed && it.next != removed
    ensures FreeList(MoveFree(items, size, removed), size - 1,
                     if items[removed].next == size - 1 then removed else items[removed].next,
                     free[1..][m - 1 := removed])
  {
    hide MoveFree;
    LastNeighbours(items, size, removed, free, m);
    MovedSlots(items, size, removed, free, m);
    MovedEnds(items, size, removed, free, m);
    var f := free[1..][m - 1 := removed];
    assert f == free[m := removed][1..];
    forall k | 1 <= k < |f| ensures Follows(MoveFree(items, size, removed), f[k - 1], f[k]) {
      assert Follows(items, free[k], free[k + 1]);
      MovedLink(items, size, removed, free, m, k + 1);
    }
  }

  lemma ListedAfterPush(items: seq<Item>, items2: seq<Item>, size: int, free: seq<int>, i: int)
    requires 0 <= size <= |items| == |items2| && AllListed(items, size, free)
    requires forall j | 0 <= j < size && j != i :: items2[j].hndl == items[j].hndl
    ensures AllListed(items2, size, [i] + free)
  {
  }

  /** The list after its head was popped; at m it may have named the last slot. */
  lemma ListedAfterPop(items: seq<Item>, items2: seq<Item>, size: int, free: seq<int>, m: int)
    requires 0 < size <= |items| == |items2| && AllListed(items, size, free) && free != []
    requires forall j | 0 <= j < size - 1 && j != free[0] :: items2[j].hndl == items[j].hndl
    requires 0 <= free[0] < size - 1 ==> items2[free[0]].hndl == items[size - 1].hndl
    requires if 1 <= m < |free| then free[m] == size - 1 else size - 1 !in free[1..]
    ensures AllListed(items2, size - 1, if 1 <= m < |free| then free[1..][m - 1 := free[0]] else free[1..])
  {
  }

  /** Where the code reads and writes in one round stays inside the arrays. */
  predicate RoundInRange(items: seq<Item>, size: int, removed: int)
  {
    && 0 <= removed < size <= |items|
    && (items[removed].next == -1 || 0 <= items[removed].next < |items|)
    && var it := AfterMove(items, size, removed)[removed];
       it.hndl == null ==>
         && (it.prev == -1 || 0 <= it.prev < |items|) && it.prev != removed
         && (it.next == -1 || 0 <= it.next < |items|) && it.next != removed
  }

  lemma InRange(items: seq<Item>, size: int, removed: int)
    requires RoundInRange(items, size, removed)
    ensures 0 <= removed < size <= |items|
  {
  }

  function AfterMove(items: seq<Item>, size: int, removed: int): (r: seq<Item>)
    requires 0 <= removed < size <= |items|
    requires items[removed].next == -1 || 0 <= items[removed].next < |items|
    ensures |r| == |items|
  {
    if removed == size - 1 then items
    else
      var items1 := SetPrev(items, items[removed].next, -1);
      items1[removed := items1[size - 1]]
  }

  function AfterRound(items: seq<Item>, size: int, removed: int): (r: seq<Item>)
    requires RoundInRange(items, size, removed)
    ensures |r| == |items|
  {
    var items1 := AfterMove(items, size, removed);
    var it := items1[removed];
    if it.hndl != null then items1
    else SetPrev(SetNext(items1, it.prev, removed), it.next, removed)
  }

  function AfterRemoved(items: seq<Item>, size: int, removed: int): int
    requires RoundInRange(items, size, removed)
  {
    if AfterMove(items, size, removed)[removed].hndl == null && items[removed].next == size - 1 then removed
    else items[removed].next
  }

  lemma RoundOnLast(items: seq<Item>, size: int, removed: int, free: seq<int>)
    requires FreeList(items, size, removed, free) && AllListed(items, size, free) && free != [] && removed == size - 1
    ensures RoundInRange(items, size, removed)
    ensures RoundDone(items, size, removed, free[1..])
  {
    NextOfFirst(items, size, removed, free);
    PopLast(items, size, removed, free);
    ListedAfterPop(items, AfterRound(items, size, removed), size, free, 0);
  }

  lemma RoundOnLive(items: seq<Item>, size: int, removed: int, free: seq<int>)
    requires FreeList(items, size, removed, free) && AllListed(items, size, free) && free != []
    requires removed != size - 1 && items[size - 1].hndl != null
    ensures RoundInRange(items, size, removed)
    ensures RoundDone(items, size, removed, free[1..])
  {
    NextOfFirst(items, size, removed, free);
    PopLive(items, size, removed, free);
    ListedAfterPop(items, AfterRound(items, size, removed), size, free, 0);
  }

  lemma RoundOnFree(items: seq<Item>, size: int, removed: int, free: seq<int>, m: int)
    requires FreeList(items, size, removed, free) && AllListed(items, size, free)
    requires 1 <= m < |free| && free[m] == size - 1
    ensures RoundInRange(items, size, removed)
    ensures RoundDone(items, size, removed, free[1..][m - 1 := removed])
  {
    NextOfFirst(items, size, removed, free);
    PopFree(items, size, removed, free, m);
    assert AfterRound(items, size, removed) == MoveFree(items, size, removed);
    ListedAfterPop(items, AfterRound(items, size, removed), size, free, m);
  }

  /** What one round must leave behind. */
  ghost predicate RoundDone(items: seq<Item>, size: int, removed: int, free2: seq<int>)
    requires RoundInRange(items, size, removed)
  {
    var items2 := AfterRound(items, size, removed);
    && FreeList(items2, size - 1, AfterRemoved(items, size, removed), free2) && AllListed(items2, size - 1, free2)
    && (forall j | 0 <= j < size - 1 && j != removed :: items2[j].hndl == items[j].hndl)
    && (removed < size - 1 ==> items2[removed].hndl == items[size - 1].hndl)
  }

  /** One round of the compaction keeps the free list, in all three cases. */
  lemma RoundKeepsList(items: seq<Item>, size: int, removed: int, free: seq<int>) returns (free2: seq<int>)
    requires FreeList(items, size, removed, free) && AllListed(items, size, free) && free != []
    ensures RoundInRange(items, size, removed)
    ensures |free2| == |free| - 1 && RoundDone(items, size, removed, free2)
  {
    hide RoundDone;
    if removed == size - 1 {
      RoundOnLast(items, size, removed, free);
      free2 := free[1..];
    } else if items[size - 1].hndl != null {
      RoundOnLive(items, size, removed, free);
      free2 := free[1..];
    } else {
      var m :| 0 <= m < |free| && free[m] == size - 1;
      RoundOnFree(items, size, removed, free, m);
      free2 := free[1..][m - 1 := removed];
    }
  }

  lemma ExtendList(items: seq<Item>, items2: seq<Item>, size: int, removed: int, free: seq<int>)
    requires FreeList(items, size, removed, free) && AllListed(items, size, free) && size < |items| == |items2|
    requires removed == -1 || (0 <= removed < size && items[removed].prev == -1)
    requires items2[..size] == items[..size] && items2[size].hndl != null
    ensures FreeList(items2, size + 1, removed, free) && AllListed(items2, size + 1, free)
  {
    forall k | 1 <= k < |free| ensures Follows(items2, free[k - 1], free[k]) {
      assert Follows(items, free[k - 1], free[k]);
    }
  }

  lemma LengthenList(items: seq<Item>, items2: seq<Item>, size: int, removed: int, free: seq<int>)
    requires FreeList(items, size, removed, free) && AllListed(items, size, free)
    requires items <= items2
    ensures FreeList(items2, size, removed, free) && AllListed(items2, size, free)
  {
  }

  class Poller {
    var size: int
    var index: int
    var pollset: array<PollFd>
    var hndls: array<Item>
    var removed: int

    /** The handles registered and not removed. */
    ghost var Handles: set<Hndl>
    /** The slots on the free list, first one first. */
    ghost var Free: seq<int>

    ghost predicate Shape()
      reads this, pollset, hndls
    {
      0 <= size <= pollset.Length == hndls.Length && pollset.Length > 0
    }

    /** Slots in use and registered handles correspond. */
    ghost predicate Slots()
      requires Shape()
      reads this, pollset, hndls, Handles
    {
      && (forall i | 0 <= i < size && hndls[i].hndl == null :: pollset[i].revents == QUIET)
      && (forall i | 0 <= i < size && hndls[i].hndl != null :: hndls[i].hndl in Handles && hndls[i].hndl.index == i)
      && (forall h | h in Handles :: 0 <= h.index < size && hndls[h.index].hndl == h)
    }

    /** What holds between two rounds of a compaction. */
    ghost predicate Compacting()
      reads this, pollset, hndls, Handles
    {
      Shape() && FreeList(hndls[..], size, removed, Free) && AllListed(hndls[..], size, Free) && Slots()
    }

    /** What holds between two calls. */
    ghost predicate Valid()
      reads this, pollset, hndls, Handles
    {
      Compacting() && 0 <= index && (removed != -1 ==> 0 <= removed < size && hndls[removed].prev == -1)
    }

    /** What the poll set stands for: each registered handle with its own pollfd. */
    ghost function Contents(): map<Hndl, PollFd>
      requires Compacting()
      reads this, pollset, hndls, Handles
    {
      map h | h in Handles :: pollset[h.index]
    }

    constructor ()
      ensures Valid() && Contents() == map[] && fresh(pollset) && fresh(hndls) && Handles == {}
    {
      size, index, removed := 0, 0, -1;
      pollset := new PollFd[GRANULARITY](_ => PollFd(-1, false, false, QUIET));
      hndls := new Item[GRANULARITY](_ => Item(null, -1, -1));
      Handles, Free := {}, [];
    }

    /** Put slot i at the front of the free list. */
    method Detach(i: int)
      requires Shape() && 0 <= i < size && (removed == -1 || (0 <= removed < size && removed != i))
      modifies this`removed, pollset, hndls
      ensures removed == i
      ensures pollset[..] == old(pollset[..][i := pollset[i].(revents := QUIET)])
      ensures hndls[..] == old(SetPrev(hndls[..], removed, i)[i := Item(null, -1, removed)])
    {
      pollset[i] := pollset[i].(revents := QUIET);
      if removed != -1 {
        hndls[removed] := hndls[removed].(prev := i);
      }
      hndls[i] := Item(null, -1, removed);
      removed := i;
    }

    /** The slots of the other handles do not notice. */
    method Forget(h: Hndl)
      requires Shape() && Slots() && h in Handles
      requires removed == -1 || (0 <= removed < size && hndls[removed].hndl == null)
      modifies this`removed, this`Handles, this`Free, pollset, hndls
      ensures Shape() && Slots() && Handles == old(Handles) - {h} && removed == h.index && Free == [h.index] + old(Free)
      ensures forall g | g in Handles :: pollset[g.index] == old(pollset[g.index])
      ensures forall j | 0 <= j < size && j != h.index :: hndls[j].hndl == old(hndls[j].hndl)
      ensures hndls[h.index].prev == -1
      ensures hndls[..] == old(SetPrev(hndls[..], removed, h.index)[h.index := Item(null, -1, removed)])
    {
      ghost var i := h.index;
      Detach(h.index);
      Handles := Handles - {h};
      Free := [i] + Free;
      assert forall j | 0 <= j < size && j != i :: pollset[j] == old(pollset[j]) && hndls[j].hndl == old(hndls[j].hndl);
    }

    /** Forget a handle: its slot goes to the front of the free list. */
    method Rm(h: Hndl)
      requires Valid() && h in Handles
      modifies this`removed, this`Handles, this`Free, pollset, hndls
      ensures Valid() && Handles == old(Handles) - {h}
      ensures Contents() == old(Contents()) - {h}
    {
      hide FreeList, AllListed, Slots, SetPrev;
      ghost var i, items := h.index, hndls[..];
      RemovedInRange();
      SlotOf(h);
      PushFree(items, size, removed, Free, i);
      Forget(h);
      ListedAfterPush(items, hndls[..], size, old(Free), i);
    }

    lemma SlotOf(h: Hndl)
      requires Compacting() && h in Handles
      ensures 0 <= h.index < size && hndls[h.index].hndl == h
    {
    }

    lemma RemovedInRange()
      requires Compacting()
      ensures removed == -1 <==> Free == []
      ensures removed != -1 ==> 0 <= removed < size && hndls[removed].hndl == null
      ensures forall i | 0 <= i < size :: i in Free <==> hndls[i].hndl == null
    {
    }

    /** Fill slot i from slot `size`, the one behind the end. */
    method MoveLast(i: int)
      requires Shape() && 0 <= i < size < hndls.Length
      requires hndls[i].next == -1 || 0 <= hndls[i].next < hndls.Length
      modifies pollset, hndls, hndls[size].hndl
      ensures pollset[..] == old(pollset[..][i := pollset[size]])
      ensures hndls[..] == old(var it := SetPrev(hndls[..], hndls[i].next, -1); it[i := it[size]])
      ensures var h := old(hndls[size].hndl); h != null ==> h.index == i
    {
      pollset[i] := pollset[size];
      if hndls[i].next != -1 {
        hndls[hndls[i].next] := hndls[hndls[i].next].(prev := -1);
      }
      hndls[i] := hndls[size];
      if hndls[i].hndl != null {
        hndls[i].hndl.index := i;
      }
    }

    /** Point the neighbours of the free slot i at it. */
    method Relink(i: int)
      requires Shape() && 0 <= i < hndls.Length
      requires hndls[i].prev == -1 || 0 <= hndls[i].prev < hndls.Length
      requires hndls[i].next == -1 || 0 <= hndls[i].next < hndls.Length
      requires hndls[i].prev != i && hndls[i].next != i
      modifies hndls
      ensures hndls[..] == old(SetPrev(SetNext(hndls[..], hndls[i].prev, i), hndls[i].next, i))
    {
      if hndls[i].prev != -1 {
        hndls[hndls[i].prev] := hndls[hndls[i].prev].(next := i);
      }
      if hndls[i].next != -1 {
        hndls[hndls[i].next] := hndls[hndls[i].next].(prev := i);
      }
    }

    /** One round of the compaction: the first free slot is filled from the end of
        the arrays, which may itself be a free slot. */
    method Round()
      requires Shape() && RoundInRange(hndls[..], size, removed)
      modifies this`removed, this`size, pollset, hndls, hndls[size - 1].hndl
      ensures size == old(size) - 1
      ensures hndls[..] == old(AfterRound(hndls[..], size, removed))
      ensures removed == old(AfterRemoved(hndls[..], size, removed))
      ensures pollset[..] == old(pollset[..][removed := pollset[size - 1]])
      ensures var h := old(hndls[size - 1].hndl); h != null && old(removed) != size ==> h.index == old(removed)
      ensures var h := old(hndls[size - 1].hndl); h != null && old(removed) == size ==> h.index == old(h.index)
    {
      var i := removed;
      removed := hndls[i].next;
      size := size - 1;
      if i != size {
        MoveLast(i);
      }
      assert hndls[..] == old(AfterMove(hndls[..], size, removed));
      if hndls[i].hndl == null {
        Relink(i);
        if removed == size {
          removed := i;
        }
      }
    }

    /** A round that treats the handles as it should: the live ones keep their
        pollfds and know their slots. */
    method RoundOfSlots(ghost free2: seq<int>)
      requires Shape() && Slots() && RoundInRange(hndls[..], size, removed) && hndls[removed].hndl == null
      requires forall j | 0 <= j < size - 1 && j != removed ::
                 AfterRound(hndls[..], size, removed)[j].hndl == hndls[j].hndl
      requires removed < size - 1 ==> AfterRound(hndls[..], size, removed)[removed].hndl == hndls[size - 1].hndl
      modifies this`removed, this`size, this`Free, pollset, hndls, Handles
      ensures Shape() && Slots() && size == old(size) - 1 && Free == free2
      ensures hndls[..] == old(AfterRound(hndls[..], size, removed))
      ensures removed == old(AfterRemoved(hndls[..], size, removed))
      ensures forall h | h in Handles :: 0 <= h.index < size && pollset[h.index] == old(pollset[h.index])
    {
      hide AfterRound, AfterRemoved, RoundInRange;
      ghost var items := hndls[..];
      assert 0 <= removed < size by { InRange(items, size, removed); }
      Round();
      Free := free2;
    }

    method CompactOne()
      requires Compacting() && removed != -1
      modifies this`removed, this`size, this`Free, pollset, hndls, Handles
      ensures Compacting() && |Free| == |old(Free)| - 1 && size == old(size) - 1
      ensures Contents() == old(Contents())
    {
      hide FreeList, AllListed, AfterRound, AfterRemoved, RoundInRange, Slots;
      RemovedInRange();
      ghost var free2 := RoundKeepsList(hndls[..], size, removed, Free);
      RoundOfSlots(free2);
    }

    /** Register a handle: the arrays double when they are full. */
    method Add(fd: int, h: Hndl)
      requires Valid() && h !in Handles
      modifies this`size, this`pollset, this`hndls, this`Handles, pollset, hndls, h
      ensures Valid() && Handles == old(Handles) + {h} && Free == old(Free)
      ensures pollset == old(pollset) || fresh(pollset)
      ensures hndls == old(hndls) || fresh(hndls)
      ensures Contents() == old(Contents())[h := PollFd(fd, false, false, QUIET)]
    {
      hide FreeList, AllListed;
      if size >= pollset.Length {
        Grow();
      }
      Append(fd, h);
    }

    /** The first unused slot goes to the handle. */
    method Occupy(fd: int, h: Hndl)
      requires Shape() && Slots() && h !in Handles && size < pollset.Length
      modifies this`size, this`Handles, pollset, hndls, h
      ensures Shape() && Slots() && Handles == old(Handles) + {h} && size == old(size) + 1
      ensures pollset[h.index] == PollFd(fd, false, false, QUIET) && h.index == old(size)
      ensures forall g | g in old(Handles) :: g.index == old(g.index) && pollset[g.index] == old(pollset[g.index])
      ensures hndls[..] == old(hndls[..])[old(size) := Item(h, -1, -1)]
    {
      Install(fd, h);
      size := size + 1;
      Handles := Handles + {h};
    }

    method Append(fd: int, h: Hndl)
      requires Valid() && h !in Handles && size < pollset.Length
      modifies this`size, this`Handles, pollset, hndls, h
      ensures Valid() && Handles == old(Handles) + {h}
      ensures Contents() == old(Contents())[h := PollFd(fd, false, false, QUIET)]
    {
      hide FreeList, AllListed, Slots;
      ghost var items := hndls[..];
      RemovedInRange();
      Occupy(fd, h);
      ExtendList(items, hndls[..], size - 1, removed, Free);
    }

    method Install(fd: int, h: Hndl)
      requires Shape() && size < pollset.Length
      modifies pollset, hndls, h
      ensures pollset[..] == old(pollset[..])[size := PollFd(fd, false, false, QUIET)]
      ensures hndls[..] == old(hndls[..])[size := Item(h, -1, -1)]
      ensures h.index == size
    {
      pollset[size] := PollFd(fd, false, false, QUIET);
      h.index := size;
      hndls[size] := Item(h, -1, -1);
    }

    /** Twice the slots; those in use keep their place. */
    method Enlarge()
      requires Shape() && Slots()
      modifies this`pollset, this`hndls
      ensures Shape() && Slots() && fresh(pollset) && fresh(hndls) && pollset.Length == 2 * old(pollset.Length)
      ensures old(pollset[..]) <= pollset[..] && old(hndls[..]) <= hndls[..]
      ensures forall h | h in Handles :: 0 <= h.index < size && pollset[h.index] == old(pollset[h.index])
    {
      ghost var was, slots := pollset[..], hndls[..];
      var p := Doubled(pollset, PollFd(-1, false, false, QUIET));
      var q := Doubled(hndls, Item(null, -1, -1));
      assert forall j | 0 <= j < size :: p[..][j] == was[j] && q[..][j] == slots[j];
      pollset, hndls := p, q;
    }

    method Grow()
      requires Valid() && size == pollset.Length
      modifies this`pollset, this`hndls
      ensures Valid() && fresh(pollset) && fresh(hndls) && size < pollset.Length
      ensures Contents() == old(Contents())
    {
      hide FreeList, AllListed, Slots;
      ghost var items := hndls[..];
      Enlarge();
      LengthenList(items, hndls[..], size, removed, Free);
    }

    static method Doubled<T(0)>(a: array<T>, filler: T) returns (b: array<T>)
      ensures fresh(b) && b.Length == 2 * a.Length && a[..] <= b[..] && a[..] == b[..a.Length]
    {
      b := new T[2 * a.Length](_ => filler);
      forall j | 0 <= j < a.Length {
        b[j] := a[j];
      }
    }

    /** Rewrite the pollfd of one handle. */
    method Put(h: Hndl, f: PollFd)
      requires Valid() && h in Handles
      modifies pollset
      ensures Valid() && Contents() == old(Contents()[h := f])
    {
      pollset[h.index] := f;
    }

    method SetIn(h: Hndl)
      requires Valid() && h in Handles
      modifies pollset
      ensures Valid() && Contents() == old(Contents()[h := Contents()[h].(wantIn := true)])
    {
      Put(h, pollset[h.index].(wantIn := true));
    }

    /** An event no longer asked for is not reported either. */
    method ResetIn(h: Hndl)
      requires Valid() && h in Handles
      modifies pollset
      ensures Valid()
      ensures Contents() == old(var f := Contents()[h];
                                Contents()[h := f.(wantIn := false, revents := f.revents.(inn := false))])
    {
      var f := pollset[h.index];
      Put(h, f.(wantIn := false, revents := f.revents.(inn := false)));
    }

    method SetOut(h: Hndl)
      requires Valid() && h in Handles
      modifies pollset
      ensures Valid() && Contents() == old(Contents()[h := Contents()[h].(wantOut := true)])
    {
      Put(h, pollset[h.index].(wantOut := true));
    }

    method ResetOut(h: Hndl)
      requires Valid() && h in Handles
      modifies pollset
      ensures Valid()
      ensures Contents() == old(var f := Contents()[h];
                                Contents()[h := f.(wantOut := false, revents := f.revents.(out := false))])
    {
      var f := pollset[h.index];
      Put(h, f.(wantOut := false, revents := f.revents.(out := false)));
    }

    /** Drop the removed handles: afterwards the slots in use are exactly those of
        the registered handles. */
    method Compact()
      requires Valid()
      modifies this`removed, this`size, this`Free, pollset, hndls, Handles
      ensures Valid() && removed == -1 && size == old(size) - |old(Free)|
      ensures forall i | 0 <= i < size :: hndls[i].hndl != null && hndls[i].hndl in Handles && hndls[i].hndl.index == i
      ensures forall h | h in Handles :: 0 <= h.index < size && hndls[h.index].hndl == h
      ensures Contents() == old(Contents())
    {
      hide FreeList, AllListed, Slots;
      RemovedInRange();
      while removed != -1
        invariant Compacting() && Contents() == old(Contents())
        invariant size == old(size) - |old(Free)| + |Free|
        invariant removed == -1 <==> Free == []
        decreases |Free|
      {
        CompactOne();
        RemovedInRange();
      }
      AllSlotsLive();
    }

    lemma AllSlotsLive()
      requires Compacting() && removed == -1
      ensures forall i | 0 <= i < size :: hndls[i].hndl != null && hndls[i].hndl in Handles && hndls[i].hndl.index == i
      ensures forall h | h in Handles :: 0 <= h.index < size && hndls[h.index].hndl == h
    {
    }

    /** What the system reports for the slots in use. */
    method Poll(answers: seq<Revents>)
      requires Valid() && removed == -1 && |answers| == size
      modifies pollset
      ensures Valid()
      ensures forall h | h in Handles :: Contents()[h] == old(Contents())[h].(revents := answers[h.index])
    {
      hide FreeList, AllListed;
      AllSlotsLive();
      ghost var was := pollset[..];
      forall i | 0 <= i < size {
        pollset[i] := pollset[i].(revents := answers[i]);
      }
      assert hndls[..] == old(hndls[..]);
    }

    /** The search for events starts again at the first slot. */
    method Rewind()
      requires Valid()
      modifies this`index
      ensures Valid() && index == 0 && Contents() == old(Contents())
    {
      hide FreeList, AllListed;
      index := 0;
    }

    /** Compact, then poll; None is a poll that was interrupted. */
    method Wait(answers: Option<seq<Revents>>) returns (ok: bool)
      requires Valid()
      requires answers.Some? ==> |answers.value| == size - |Free|
      modifies this`removed, this`size, this`Free, this`index, pollset, hndls, Handles
      ensures Valid() && removed == -1 && index == 0 && size == old(size) - |old(Free)|
      ensures forall i | 0 <= i < size :: hndls[i].hndl != null && hndls[i].hndl in Handles && hndls[i].hndl.index == i
      ensures forall h | h in Handles :: 0 <= h.index < size && hndls[h.index].hndl == h
      ensures ok <==> answers.Some?
      ensures !ok ==> Contents() == old(Contents())
      ensures ok ==> forall h | h in Handles ::
                Contents()[h] == old(Contents())[h].(revents := answers.value[h.index])
    {
      hide FreeList, AllListed, Slots;
      Compact();
      Rewind();
      if answers.None? {
        return false;
      }
      Poll(answers.value);
      return true;
    }

    /** Move `index` on to the first slot that reports something. */
    method Scan()
      requires Valid()
      modifies this`index
      ensures Valid() && old(index) <= index && Contents() == old(Contents())
      ensures index < size ==> pollset[index].revents != QUIET
      ensures forall h | h in Handles && old(index) <= h.index < index :: Contents()[h].revents == QUIET
      ensures forall h | h in Handles :: h.index < size
    {
      while index < size && pollset[index].revents == QUIET
        invariant Valid() && old(index) <= index
        invariant forall i | old(index) <= i < index && i < size :: pollset[i].revents == QUIET
      {
        index := index + 1;
      }
    }

    lemma ReportingSlotIsLive(i: int)
      requires Valid() && 0 <= i < size && pollset[i].revents != QUIET
      ensures var h := hndls[i].hndl; h != null && h in Handles && h.index == i && Contents()[h] == pollset[i]
    {
    }

    /** The next reported event: the first slot from `index` on that has one. */
    method NextEvent() returns (e: Event)
      requires Valid()
      modifies this`index, pollset
      ensures Valid() && index >= old(index)
      ensures e == NoEvent ==> Contents() == old(Contents())
      ensures e == NoEvent ==> forall h | h in Handles && h.index >= old(index) :: old(Contents())[h].revents == QUIET
      ensures e != NoEvent ==> e.hndl in Handles && e.hndl.index >= old(index)
      ensures e != NoEvent ==>
                forall h | h in Handles && old(index) <= h.index < e.hndl.index :: old(Contents())[h].revents == QUIET
      ensures e != NoEvent ==>
                var f := old(Contents())[e.hndl];
                Contents() == old(Contents())[e.hndl := match e.kind
                  case In => f.(revents := f.revents.(inn := false))
                  case Out => f.(revents := f.revents.(out := false))
                  case Err => f]
      ensures e != NoEvent ==> index == e.hndl.index + if e.kind == Err then 1 else 0
      ensures e != NoEvent ==> var r := old(Contents())[e.hndl].revents;
                r != QUIET && e.kind == (if r.inn then In else if r.out then Out else Err)
    {
      hide FreeList, AllListed, Slots;
      Scan();
      if index >= size {
        return NoEvent;
      }
      ReportingSlotIsLive(index);
      var h := hndls[index].hndl;
      var f := pollset[index];
      if f.revents.inn {
        Put(h, f.(revents := f.revents.(inn := false)));
        return Event(In, h);
      } else if f.revents.out {
        Put(h, f.(revents := f.revents.(out := false)));
        return Event(Out, h);
      }
      Skip();
      assert Contents() == old(Contents())[h := f];
      return Event(Err, h);
    }

    method Skip()
      requires Valid()
      modifies this`index
      ensures Valid() && index == old(index) + 1 && Contents() == old(Contents())
    {
      index := index + 1;
    }
  }
}
