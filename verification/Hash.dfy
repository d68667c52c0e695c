/** The hash table: an array of lists that doubles, for any key function. */
module Hashes {
  import opened Seqs

  type u32 = x: int | 0 <= x < 0x1_0000_0000

  const INITIAL_SLOTS: u32 := 32
  const MAX_SLOTS: u32 := 0x8000_0000

  function Wrap(x: int): u32
  {
    x % 0x1_0000_0000
  }

  lemma WrapStep(n: int)
    ensures Wrap(Wrap(n) + 1) == Wrap(n + 1) && Wrap(Wrap(n) - 1) == Wrap(n - 1)
  {
  }

  function Pow2(n: nat): nat
  {
    if n == 0 then 1 else 2 * Pow2(n - 1)
  }

  ghost predicate SlotCount(slots: int)
  {
    exists n: nat :: slots == 32 * Pow2(n)
  }

  lemma DoubleSlots(slots: int)
    requires SlotCount(slots)
    ensures SlotCount(2 * slots)
  {
    var n: nat :| slots == 32 * Pow2(n);
    assert 2 * slots == 32 * Pow2(n + 1);
  }

  /** A slot count below the limit can double without leaving 32 bits. */
  lemma {:induction false} BelowLimit(slots: int)
    requires SlotCount(slots) && slots < MAX_SLOTS
    ensures 0 < 2 * slots <= MAX_SLOTS
  {
    var n: nat :| slots == 32 * Pow2(n);
    if n >= 26 {
      Pow2Grows(26, n);
    } else {
      Pow2Grows(n, 25);
    }
  }

  lemma {:induction false} Pow2Grows(m: nat, n: nat)
    requires m <= n
    ensures 1 <= Pow2(m) <= Pow2(n) && Pow2(25) == 0x200_0000 && Pow2(26) == 0x400_0000
    decreases n
  {
    assert Pow2(5) == 32 && Pow2(10) == 1024 && Pow2(15) == 0x8000 && Pow2(20) == 0x10_0000 && Pow2(25) == 0x200_0000;
    if m < n {
      Pow2Grows(m, n - 1);
    } else if m > 0 {
      Pow2Grows(m - 1, m - 1);
    }
  }

  class HashItem {
    var key: u32

    constructor ()
    {
      key := 0xffff;
    }
  }

  class Hash {
    const hash: u32 -> u32
    var slots: u32
    var items: u32
    var lists: array<seq<HashItem>>
    /** What the table stands for. */
    ghost var Table: map<u32, HashItem>

    /** The slot of a key among n. */
    function Slot(key: u32, n: int): (s: int)
      requires n > 0
      ensures 0 <= s < n
    {
      hash(key) % n
    }

    /** The lists of `a` hold items of the table only, each in its own slot. */
    ghost predicate Placed(a: array<seq<HashItem>>)
      reads this`Table, a, Table.Values
    {
      && a.Length > 0
      && (forall t | 0 <= t < a.Length :: NoDup(a[t]))
      && (forall t, x | 0 <= t < a.Length && x in a[t] ::
            x in Table.Values && x.key in Table && Table[x.key] == x && Slot(x.key, a.Length) == t)
    }

    /** Every key of the table leads to its item. */
    ghost predicate Found(a: array<seq<HashItem>>)
      requires a.Length > 0
      reads this`Table, a, Table.Values
    {
      forall k | k in Table :: Table[k].key == k && Table[k] in a[Slot(k, a.Length)]
    }

    /** The counters, with room for one more item than an insertion leaves. */
    ghost predicate Counted(slack: nat)
      reads this
    {
      && SlotCount(slots) && slots <= MAX_SLOTS
      && items == Wrap(|Table|)
      && (|Table| * 2 <= slots + slack || slots == MAX_SLOTS)
    }

    ghost predicate Valid()
      reads this, lists, Table.Values
    {
      lists.Length == slots && Placed(lists) && Found(lists) && Counted(0)
    }

    ghost predicate Loaded()
      reads this, lists, Table.Values
    {
      lists.Length == slots && Placed(lists) && Found(lists) && Counted(2)
    }

    /** Below the slot limit nothing wraps: the counter is exact, and so are the
        doubled counter and the doubled slot count. */
    lemma NothingWraps()
      requires Counted(2) && slots < MAX_SLOTS
      ensures items == |Table| && Wrap(items * 2) == 2 * |Table| && Wrap(slots * 2) == 2 * slots
    {
    }

    constructor (hash: u32 -> u32)
      ensures Valid() && Table == map[] && fresh(lists) && this.hash == hash
    {
      this.hash := hash;
      slots, items := INITIAL_SLOTS, 0;
      lists := new seq<HashItem>[INITIAL_SLOTS](_ => []);
      Table := map[];
      new;
      assert INITIAL_SLOTS == 32 * Pow2(0);
    }

    /** Look a key up. */
    method Get(key: u32) returns (item: HashItem?)
      requires Valid()
      ensures item == if key in Table then Table[key] else null
    {
      var list := lists[Slot(key, slots)];
      for j := 0 to |list|
        invariant forall l | 0 <= l < j :: list[l].key != key
      {
        assert list[j] in list;
        if list[j].key == key {
          return list[j];
        }
      }
      return null;
    }

    /** False is the fatal check against a key that is already there. */
    method Insert(key: u32, item: HashItem) returns (ok: bool)
      requires Valid() && item !in Table.Values
      modifies this, lists, item
      ensures ok <==> key !in old(Table)
      ensures ok ==> Valid() && Table == old(Table)[key := item]
      ensures lists == old(lists) || fresh(lists)
      ensures !ok ==> Table == old(Table)
    {
      hide SlotCount, Placed, Found;
      var clash := Get(key);
      if clash != null {
        return false;
      }
      Append(key, item);
      if Wrap(items * 2) > slots && slots < MAX_SLOTS {
        Rehash();
      }
      return true;
    }

    method Append(key: u32, item: HashItem)
      requires Valid() && item !in Table.Values && key !in Table
      modifies this`items, this`Table, lists, item
      ensures Loaded() && Table == old(Table)[key := item]
    {
      hide SlotCount, Placed, Found, Slot, Wrap;
      WrapStep(|Table|);
      AppendItem(key, item);
      items := Wrap(items + 1);
    }

    method AppendItem(key: u32, item: HashItem)
      requires lists.Length == slots && Placed(lists) && Found(lists) && item !in Table.Values && key !in Table
      modifies this`Table, lists, item
      ensures Placed(lists) && Found(lists) && Table == old(Table)[key := item]
    {
      hide Slot;
      var i := Slot(key, slots);
      item.key := key;
      assert item !in lists[i];
      lists[i] := lists[i] + [item];
      Table := Table[key := item];
      assert item in Table.Values by { assert key in Table; }
      forall x | x in old(Table.Values) && x != item ensures x in Table.Values {
        var k :| k in old(Table) && old(Table)[k] == x;
        assert k in Table && Table[k] == x;
      }
    }

    method Rehash()
      requires Loaded() && slots < MAX_SLOTS
      modifies this`slots, this`lists, lists
      ensures Valid() && fresh(lists) && slots == 2 * old(slots)
    {
      hide SlotCount, Slot, Wrap, Placed, Found, Split;
      var oldarray := lists;
      DoubleSlots(slots);
      BelowLimit(slots);
      slots := slots * 2;
      lists := new seq<HashItem>[slots](_ => []);
      StartSplit(oldarray);
      Redistribute(oldarray);
      EndSplit(oldarray);
    }

    lemma StartSplit(oldarray: array<seq<HashItem>>)
      requires oldarray.Length > 0 && lists.Length > 0 && Found(oldarray)
      requires forall t | 0 <= t < lists.Length :: lists[t] == []
      ensures Placed(lists) && Split(oldarray)
    {
    }

    lemma EndSplit(oldarray: array<seq<HashItem>>)
      requires oldarray.Length > 0 && lists.Length > 0 && Split(oldarray)
      requires forall s | 0 <= s < oldarray.Length :: oldarray[s] == []
      ensures Found(lists)
    {
    }

    method Redistribute(oldarray: array<seq<HashItem>>)
      requires Placed(oldarray) && Placed(lists) && lists.Length == slots && slots > 0
      requires oldarray.Length > 0 && lists != oldarray && Split(oldarray)
      modifies lists, oldarray
      ensures Placed(lists) && Placed(oldarray) && Split(oldarray)
      ensures forall s | 0 <= s < oldarray.Length :: oldarray[s] == []
    {
      hide Placed, Split;
      for i := 0 to oldarray.Length
        invariant Placed(oldarray) && Placed(lists) && Split(oldarray)
        invariant forall s | 0 <= s < i :: oldarray[s] == []
      {
        while oldarray[i] != []
          invariant Placed(oldarray) && Placed(lists) && Split(oldarray)
          invariant forall s | 0 <= s < i :: oldarray[s] == []
          decreases |oldarray[i]|
        {
          MoveFirst(oldarray, i);
        }
      }
    }

    /** Every item is in exactly one of the two arrays. */
    ghost predicate Split(oldarray: array<seq<HashItem>>)
      requires oldarray.Length > 0 && lists.Length > 0
      reads this`Table, this`lists, lists, oldarray, Table.Values
    {
      forall k | k in Table ::
        && Table[k].key == k
        && (Table[k] in lists[Slot(k, lists.Length)] <==> Table[k] !in oldarray[Slot(k, oldarray.Length)])
    }

    method MoveFirst(oldarray: array<seq<HashItem>>, i: int)
      requires Placed(oldarray) && Placed(lists) && lists.Length == slots && lists != oldarray && Split(oldarray)
      requires 0 <= i < oldarray.Length && oldarray[i] != []
      modifies lists, oldarray
      ensures Placed(oldarray) && Placed(lists) && Split(oldarray)
      ensures oldarray[i] == old(oldarray[i][1..])
      ensures forall s | 0 <= s < oldarray.Length && s != i :: oldarray[s] == old(oldarray[s])
    {
      hide Slot;
      var hitm := oldarray[i][0];
      assert hitm in oldarray[i];
      assert hitm !in oldarray[i][1..];
      oldarray[i] := oldarray[i][1..];
      var newslot := Slot(hitm.key, slots);
      lists[newslot] := lists[newslot] + [hitm];
    }

    method Erase(item: HashItem)
      requires Valid() && item in Table.Values
      modifies this`items, this`Table, lists
      ensures Valid() && Table == old(Table) - {item.key} && item !in Table.Values
    {
      hide SlotCount, Placed, Found, Slot, Wrap;
      WrapStep(|Table|);
      EraseItem(item);
      items := Wrap(items - 1);
    }

    method EraseItem(item: HashItem)
      requires lists.Length == slots && Placed(lists) && Found(lists) && item in Table.Values
      modifies this`Table, lists
      ensures Placed(lists) && Found(lists) && old(item.key in Table && Table[item.key] == item)
      ensures Table == old(Table) - {item.key} && item !in Table.Values
    {
      hide Slot;
      var slot := Slot(item.key, slots);
      var list := lists[slot];
      assert item in list;
      var k := Find(list, item);
      EraseAt(list, k);
      lists[slot] := list[..k] + list[k + 1..];
      Table := Table - {item.key};
      forall x | x in old(Table.Values) && x != item ensures x in Table.Values {
        var k :| k in old(Table) && old(Table)[k] == x;
        assert k in Table && Table[k] == x;
      }
    }
  }
}
