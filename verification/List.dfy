/** The intrusive doubly linked list. */
module Lists {
  import opened Seqs

  /** A link of an item: on no list, nothing on this side, or a neighbour. */
  datatype Link<T> = NotInList | Null | Item(item: ListItem<T>)

  /** `owner` is the structure the item is part of. */
  class ListItem<T> {
    const owner: T
    var prev: Link<T>
    var next: Link<T>

    constructor (owner: T)
      ensures !IsInList() && next == NotInList && this.owner == owner
    {
      this.owner, prev, next := owner, NotInList, NotInList;
    }

    predicate IsInList()
      reads this
    {
      prev != NotInList
    }
  }

  function ToLink<T>(it: ListItem?<T>): Link<T>
  {
    if it == null then Null else Item(it)
  }

  /** The item a link leads to. */
  function ItemOf<T>(l: Link<T>): ListItem?<T>
  {
    if l.Item? then l.item else null
  }

  /** What the items are part of. */
  function Owners<T>(s: seq<ListItem<T>>): seq<T>
  {
    seq(|s|, i requires 0 <= i < |s| => s[i].owner)
  }

  ghost predicate OneEach<T(!new)>(s: seq<ListItem<T>>)
  {
    forall x, y | x in s && y in s && x.owner == y.owner :: x == y
  }

  lemma OwnersPush<T>(s: seq<ListItem<T>>, x: ListItem<T>)
    ensures Owners(s + [x]) == Owners(s) + [x.owner]
  {
  }

  lemma OwnersNone<T>(s: seq<ListItem<T>>)
    ensures Owners(s) == [] <==> s == []
  {
  }

  lemma OwnersFirst<T>(s: seq<ListItem<T>>)
    requires s != []
    ensures Owners(s) == [s[0].owner] + Owners(s[1..])
  {
  }

  lemma OwnerIn<T(!new)>(s: seq<ListItem<T>>, x: ListItem<T>)
    requires OneEach(s + [x])
    ensures x.owner in Owners(s) <==> x in s
  {
    if x.owner in Owners(s) {
      var i :| 0 <= i < |s| && Owners(s)[i] == x.owner;
      assert s[i] in s + [x] && x in s + [x];
    }
    if x in s {
      var i :| 0 <= i < |s| && s[i] == x;
      assert Owners(s)[i] == x.owner;
    }
  }

  /** Taking an item out takes its owner out. */
  lemma OwnersWithout<T(!new)>(s: seq<ListItem<T>>, x: ListItem<T>)
    requires OneEach(s) && x in s
    ensures Owners(Without(s, x)) == Without(Owners(s), x.owner)
    ensures forall y | y in Without(s, x) :: y in s
  {
    OwnersFirst(s);
    if s[0] != x {
      assert forall y | y in s[1..] :: y in s;
      OwnersWithout(s[1..], x);
      OwnersFirst([s[0]] + Without(s[1..], x));
    }
  }

  class List<T> {
    var first: ListItem?<T>
    var last: ListItem?<T>
    ghost var Items: seq<ListItem<T>>

    ghost function Neighbour(k: int): Link<T>
      reads this
    {
      if 0 <= k < |Items| then Item(Items[k]) else Null
    }

    ghost predicate Valid()
      reads this, Items
    {
      && (forall i, j | 0 <= i < j < |Items| :: Items[i] != Items[j])
      && (forall i, j | 0 <= i < |Items| && 0 <= j < |Items| && j == i + 1 ::
            Items[i].next == Item(Items[j]) && Items[j].prev == Item(Items[i]))
      && (forall k | 0 <= k < |Items| :: Items[k].IsInList())
      && (Items != [] ==> Items[0].prev == Null && Items[|Items| - 1].next == Null)
      && ToLink(first) == Neighbour(0)
      && ToLink(last) == Neighbour(|Items| - 1)
    }

    lemma LinksAt(k: nat)
      requires Valid() && k < |Items|
      ensures Items[k].prev == Neighbour(k - 1) && Items[k].next == Neighbour(k + 1)
    {
    }

    lemma ListedAre(x: ListItem<T>)
      requires Valid() && x in Items
      ensures x.IsInList()
    {
    }

    /** A list none of whose items was written is as it was. */
    twostate lemma Untouched()
      requires old(Valid()) && unchanged(this) && forall x | x in Items :: unchanged(x)
      ensures Valid()
    {
      assert forall k | 0 <= k < |Items| :: Items[k] in Items;
    }

    constructor ()
      ensures Valid() && Items == []
    {
      first, last, Items := null, null, [];
    }

    method Empty() returns (empty: bool)
      requires Valid()
      ensures empty <==> Items == []
    {
      empty := first == null;
    }

    method Begin() returns (it: ListItem?<T>)
      requires Valid()
      ensures ToLink(it) == Neighbour(0)
    {
      it := first;
    }

    /** The successor, null behind the last one. */
    method Next(it: ListItem<T>, ghost k: nat) returns (n: ListItem?<T>)
      requires Valid() && k < |Items| && it == Items[k]
      ensures ToLink(n) == Neighbour(k + 1)
    {
      LinksAt(k);
      n := ItemOf(it.next);
    }

    /** The predecessor; of the end, null, it is the last item. */
    method Prev(it: ListItem?<T>, ghost k: nat) returns (p: ListItem?<T>)
      requires Valid() && k <= |Items| && ToLink(it) == Neighbour(k)
      ensures ToLink(p) == Neighbour(k - 1)
    {
      if it == null {
        return last;
      }
      LinksAt(k);
      p := ItemOf(it.prev);
    }

    /** Put a free item in front of `it`, or at the end when `it` is null. */
    method Insert(item: ListItem<T>, it: ListItem?<T>, ghost k: nat)
      requires Valid() && !item.IsInList()
      requires k <= |Items| && ToLink(it) == Neighbour(k)
      modifies this, item, Items
      ensures Valid() && Items == old(Items[..k] + [item] + Items[k..])
      ensures item.IsInList()
    {
      ghost var s := Items;
      Attach(item, it, k);
      Items := Items[..k] + [item] + Items[k..];
      Assemble(s, item, k);
    }

    /** The two halves of a list around an item that is linked to both. */
    lemma Assemble(s: seq<ListItem<T>>, item: ListItem<T>, k: nat)
      requires k <= |s| && Items == s[..k] + [item] + s[k..] && item !in s
      requires forall i, j | 0 <= i < j < |s| :: s[i] != s[j]
      requires forall i, j | 0 <= i < |s| && 0 <= j < |s| && j == i + 1 && j != k ::
                 s[i].next == Item(s[j]) && s[j].prev == Item(s[i])
      requires item.prev == if k == 0 then Null else Item(s[k - 1])
      requires item.next == if k == |s| then Null else Item(s[k])
      requires k > 0 ==> s[k - 1].next == Item(item) && s[0].prev == Null && first == s[0]
      requires k < |s| ==> s[k].prev == Item(item) && s[|s| - 1].next == Null && last == s[|s| - 1]
      requires forall m | 0 <= m < |s| :: s[m].IsInList()
      requires k == 0 ==> first == item
      requires k == |s| ==> last == item
      ensures Valid()
    {
    }

    /** The pointer work of an insertion. */
    method Attach(item: ListItem<T>, it: ListItem?<T>, ghost k: nat)
      requires Valid() && !item.IsInList()
      requires k <= |Items| && ToLink(it) == Neighbour(k)
      modifies this`first, this`last, item, Items
      ensures item !in Items && item.prev == Neighbour(k - 1) && item.next == Neighbour(k)
      ensures forall m | 0 <= m < |Items| :: Items[m].next == if m == k - 1 then Item(item) else old(Items[m].next)
      ensures forall m | 0 <= m < |Items| :: Items[m].prev == if m == k then Item(item) else old(Items[m].prev)
      ensures first == (if k == 0 then item else old(first))
      ensures last == (if k == |Items| then item else old(last))
    {
      assert item !in Items;
      if k < |Items| {
        LinksAt(k);
      }
      item.prev := if it != null then it.prev else ToLink(last);
      item.next := ToLink(it);
      assert item.prev == Neighbour(k - 1) && item.next == Neighbour(k);
      if item.prev.Item? {
        item.prev.item.next := Item(item);
      }
      if item.next.Item? {
        item.next.item.prev := Item(item);
      }
      if first == null || first == it {
        first := item;
      }
      if it == null {
        last := item;
      }
    }

    /** Take an item off this list; the result is what followed it. */
    method Erase(item: ListItem<T>, ghost k: nat) returns (n: ListItem?<T>)
      requires Valid() && k < |Items| && item == Items[k]
      modifies this, Items
      ensures Valid() && Items == old(Items[..k] + Items[k + 1..])
      ensures !item.IsInList() && item.next == NotInList
      ensures ToLink(n) == old(Neighbour(k + 1))
    {
      ghost var s := Items;
      n := Detach(item, k);
      Items := Items[..k] + Items[k + 1..];
      Close(s, k);
    }

    /** The two halves of a list whose ends are linked to each other. */
    lemma Close(s: seq<ListItem<T>>, k: nat)
      requires k < |s| && Items == s[..k] + s[k + 1..]
      requires forall i, j | 0 <= i < j < |s| :: s[i] != s[j]
      requires forall i, j | 0 <= i < |s| && 0 <= j < |s| && j == i + 1 && i != k && j != k ::
                 s[i].next == Item(s[j]) && s[j].prev == Item(s[i])
      requires 0 < k < |s| - 1 ==> s[k - 1].next == Item(s[k + 1]) && s[k + 1].prev == Item(s[k - 1])
      requires k > 0 ==> s[0].prev == Null && first == s[0]
      requires k == 0 && |s| > 1 ==> s[1].prev == Null && first == s[1]
      requires k < |s| - 1 ==> s[|s| - 1].next == Null && last == s[|s| - 1]
      requires k == |s| - 1 && |s| > 1 ==> s[k - 1].next == Null && last == s[k - 1]
      requires |s| == 1 ==> first == null && last == null
      requires forall m | 0 <= m < |s| && m != k :: s[m].IsInList()
      ensures Valid()
    {
    }

    /** The pointer work of an erasure. */
    method Detach(item: ListItem<T>, ghost k: nat) returns (n: ListItem?<T>)
      requires Valid() && k < |Items| && item == Items[k]
      modifies this`first, this`last, Items
      ensures item.prev == NotInList && item.next == NotInList && ToLink(n) == Neighbour(k + 1)
      ensures forall m | 0 <= m < |Items| && m != k ::
                Items[m].next == if m == k - 1 then Neighbour(k + 1) else old(Items[m].next)
      ensures forall m | 0 <= m < |Items| && m != k ::
                Items[m].prev == if m == k + 1 then Neighbour(k - 1) else old(Items[m].prev)
      ensures first == (if k == 0 then ItemOf(Neighbour(1)) else old(first))
      ensures last == (if k == |Items| - 1 then ItemOf(Neighbour(k - 1)) else old(last))
    {
      LinksAt(k);
      if item.prev.Item? {
        item.prev.item.next := item.next;
      } else {
        first := ItemOf(item.next);
      }
      if item.next.Item? {
        item.next.item.prev := item.prev;
      } else {
        last := ItemOf(item.prev);
      }
      n := ItemOf(item.next);
      item.prev, item.next := NotInList, NotInList;
    }

    /** Insertion in front of the end. */
    method Append(item: ListItem<T>)
      requires Valid() && !item.IsInList()
      modifies this, item, Items
      ensures Valid() && Items == old(Items) + [item] && item.IsInList()
    {
      assert Items[..|Items|] + [item] + Items[|Items|..] == Items + [item];
      Insert(item, null, |Items|);
    }

    /** Erasure by the item alone. */
    method Remove(item: ListItem<T>) returns (n: ListItem?<T>)
      requires Valid() && item in Items
      modifies this, Items
      ensures Valid() && Items == Without(old(Items), item) && !item.IsInList()
      ensures TakenOut(old(Items), item, Items) && item !in Items
    {
      ghost var k :| 0 <= k < |Items| && Items[k] == item;
      WithoutAt(Items, k);
      WithoutTakesOut(Items, item);
      n := Erase(item, k);
    }
  }
}
