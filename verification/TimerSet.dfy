/** The timer set: handles in the order of their deadlines. */
module TimerSets {
  import opened CInts
  import opened Seqs
  import L = Lists

  // ---------- on values ----------

  /** A deadline and the number of the call that added it. */
  datatype Entry = Entry(deadline: int, ticket: nat)

  predicate Before(a: Entry, b: Entry)
  {
    a.deadline < b.deadline || (a.deadline == b.deadline && a.ticket < b.ticket)
  }

  /** In the order of the deadlines, and of the calls among equal deadlines. */
  ghost predicate Sorted(s: seq<Entry>)
  {
    forall i, j | 0 <= i < j < |s| :: Before(s[i], s[j])
  }

  /** Where the scan for the first later deadline stops. */
  function Place(s: seq<Entry>, deadline: int): (k: nat)
    ensures k <= |s|
    ensures forall j | 0 <= j < k :: s[j].deadline <= deadline
    ensures k < |s| ==> deadline < s[k].deadline
  {
    if s == [] || deadline < s[0].deadline then 0 else 1 + Place(s[1..], deadline)
  }

  function Insert(s: seq<Entry>, e: Entry): seq<Entry>
  {
    var k := Place(s, e.deadline);
    s[..k] + [e] + s[k..]
  }

  lemma InsertKeepsSorted(s: seq<Entry>, e: Entry)
    requires Sorted(s) && forall i | 0 <= i < |s| :: s[i].ticket < e.ticket
    ensures Sorted(Insert(s, e))
  {
  }

  /** How many entries are due. */
  function Due(s: seq<Entry>, now: int): (n: nat)
    ensures n <= |s|
    ensures forall j | 0 <= j < n :: s[j].deadline <= now
    ensures n < |s| ==> now < s[n].deadline
  {
    if s == [] || now < s[0].deadline then 0 else 1 + Due(s[1..], now)
  }

  /** In a sorted set the due entries are exactly a prefix. */
  lemma DueIsPrefix(s: seq<Entry>, now: int)
    requires Sorted(s)
    ensures forall j | 0 <= j < |s| :: s[j].deadline <= now <==> j < Due(s, now)
  {
  }

  /** The wait for the first deadline, as the program computes it. */
  function WaitFor(deadline: int, now: int): int
  {
    var t := ToInt((deadline - now) % U64);
    if t < 0 then 0 else t
  }

  /** The computed wait is the exact rest, or 0 when overdue, precisely in these
      cases: less than 2^31 ms ahead, or overdue by a rest that casts to no more
      than 0. */
  lemma WaitIsExact(deadline: int, now: int)
    requires 0 <= deadline < U64 && 0 <= now < U64
    ensures var d := deadline - now;
            (WaitFor(deadline, now) == if d < 0 then 0 else d) <==>
            (if d >= 0 then d < I32 else d % U32 == 0 || d % U32 >= I32)
    ensures deadline - now >= -I32 && deadline - now < I32 ==>
              WaitFor(deadline, now) == if deadline < now then 0 else deadline - now
  {
  }

  /** A wait never runs past a deadline that is still ahead. */
  lemma NeverPastDeadline(deadline: int, now: int)
    requires 0 <= now <= deadline < U64
    ensures now + WaitFor(deadline, now) <= deadline
  {
  }

  // ---------- the set itself ----------

  /** When a handle expires, and the timer it is part of. */
  class Expiry {
    const timer: nat
    var timeout: int
    ghost var ticket: nat

    constructor (timer: nat)
      ensures this.timer == timer
    {
      this.timer := timer;
    }
  }

  /** A handle is the link of an expiry. */
  type Hndl = L.ListItem<Expiry>

  class TimerSet {
    const timeouts: L.List<Expiry>
    ghost var Entries: seq<Entry>
    ghost var tickets: nat

    ghost predicate Valid()
      reads this, timeouts, timeouts.Items, Expiries()
    {
      timeouts.Valid() && Records() && Sorted(Entries)
    }

    ghost function Expiries(): set<object>
      reads timeouts
    {
      set h | h in timeouts.Items :: h.owner as object
    }

    /** The entries are what the handles say. */
    ghost predicate Records()
      reads this, timeouts, timeouts.Items, Expiries()
    {
      && |Entries| == |timeouts.Items|
      && (forall i | 0 <= i < |timeouts.Items| ::
            var x := timeouts.Items[i].owner;
            Entries[i] == Entry(x.timeout, x.ticket) && x.ticket < tickets && 0 <= x.timeout < U64)
    }

    /** A set none of whose handles was written is as it was. */
    twostate lemma Untouched()
      requires old(Valid()) && unchanged(this) && unchanged(timeouts)
      requires forall h | h in timeouts.Items :: unchanged(h) && unchanged(h.owner)
      ensures Valid()
    {
      hide L.List.Valid;
      timeouts.Untouched();
      assert forall k | 0 <= k < |timeouts.Items| :: timeouts.Items[k] in timeouts.Items;
    }

    constructor ()
      ensures Valid() && timeouts.Items == [] && fresh(timeouts)
    {
      timeouts := new L.List<Expiry>();
      Entries, tickets := [], 0;
    }

    /** Start a handle; the result says whether it is now the first to expire. */
    method Add(timeout: int, h: Hndl, now: int) returns (first: bool)
      requires Valid() && !h.IsInList() && forall x | x in timeouts.Items :: x.owner != h.owner
      modifies this, timeouts, timeouts.Items, h, h.owner
      ensures Valid() && h.IsInList() && h.owner.timeout == (now + timeout) % U64 && h.owner.ticket == old(tickets)
      ensures Entries == Insert(old(Entries), Entry(h.owner.timeout, h.owner.ticket))
      ensures var k := Place(old(Entries), h.owner.timeout);
              timeouts.Items == old(timeouts.Items)[..k] + [h] + old(timeouts.Items)[k..] && (first <==> k == 0)
    {
      hide L.List.Valid, Sorted, Insert, Place;
      h.owner.timeout := (now + timeout) % U64;
      timeouts.Untouched();
      first := Enlist(h);
    }

    /** The walk to the place of a stamped handle, and the insertion there. */
    method Enlist(h: Hndl) returns (first: bool)
      requires Valid() && !h.IsInList() && 0 <= h.owner.timeout < U64
      requires forall x | x in timeouts.Items :: x.owner != h.owner
      modifies this, timeouts, timeouts.Items, h, h.owner`ticket
      ensures Valid() && h.IsInList() && h.owner.ticket == old(tickets)
      ensures Entries == Insert(old(Entries), Entry(h.owner.timeout, h.owner.ticket))
      ensures var k := Place(old(Entries), h.owner.timeout);
              timeouts.Items == old(timeouts.Items)[..k] + [h] + old(timeouts.Items)[k..] && (first <==> k == 0)
    {
      hide L.List.Valid, Sorted, Insert, Place;
      var it;
      ghost var k;
      it, k := Scan(h.owner.timeout);
      PlaceIs(Entries, h.owner.timeout, k);
      var begin := timeouts.Begin();
      BeginIs(begin, it, k);
      first := begin == it;
      PutAt(h, it, k);
    }

    lemma BeginIs(begin: L.ListItem?<Expiry>, it: L.ListItem?<Expiry>, k: nat)
      requires timeouts.Valid() && k <= |timeouts.Items|
      requires L.ToLink(begin) == timeouts.Neighbour(0) && L.ToLink(it) == timeouts.Neighbour(k)
      ensures begin == it <==> k == 0
    {
    }

    /** The first handle that expires later than the given time. */
    method Scan(timeout: int) returns (it: L.ListItem?<Expiry>, ghost k: nat)
      requires timeouts.Valid() && Records()
      ensures k <= |timeouts.Items| && L.ToLink(it) == timeouts.Neighbour(k)
      ensures forall j | 0 <= j < k :: Entries[j].deadline <= timeout
      ensures k < |timeouts.Items| ==> timeout < Entries[k].deadline
    {
      hide L.List.Valid;
      it := timeouts.Begin();
      k := 0;
      while it != null && timeout >= it.owner.timeout
        invariant k <= |timeouts.Items| && L.ToLink(it) == timeouts.Neighbour(k)
        invariant forall j | 0 <= j < k :: Entries[j].deadline <= timeout
        decreases |timeouts.Items| - k
      {
        it := timeouts.Next(it, k);
        k := k + 1;
      }
    }

    method PutAt(h: Hndl, it: L.ListItem?<Expiry>, ghost k: nat)
      requires Valid() && !h.IsInList() && forall x | x in timeouts.Items :: x.owner != h.owner
      requires k <= |timeouts.Items| && L.ToLink(it) == timeouts.Neighbour(k)
      requires 0 <= h.owner.timeout < U64 && k == Place(Entries, h.owner.timeout)
      modifies this`Entries, this`tickets, timeouts, timeouts.Items, h, h.owner`ticket
      ensures Valid() && h.IsInList() && h.owner.ticket == old(tickets)
      ensures Entries == Insert(old(Entries), Entry(h.owner.timeout, h.owner.ticket))
      ensures timeouts.Items == old(timeouts.Items)[..k] + [h] + old(timeouts.Items)[k..]
    {
      hide NoDup;
      hide L.List.Valid, Sorted, Place;
      ghost var s, t := Entries, timeouts.Items;
      h.owner.ticket := tickets;
      timeouts.Untouched();
      tickets := tickets + 1;
      InsertKeepsSorted(s, Entry(h.owner.timeout, h.owner.ticket));
      timeouts.Insert(h, it, k);
      Entries := s[..k] + [Entry(h.owner.timeout, h.owner.ticket)] + s[k..];
      Shown(s, t, h, k);
    }

    /** The entries and the handles go on saying the same. */
    lemma Shown(s: seq<Entry>, t: seq<Hndl>, h: Hndl, k: nat)
      requires k <= |t| == |s| && timeouts.Items == t[..k] + [h] + t[k..]
      requires Entries == s[..k] + [Entry(h.owner.timeout, h.owner.ticket)] + s[k..]
      requires h.owner.ticket < tickets && 0 <= h.owner.timeout < U64
      requires forall i | 0 <= i < |t| ::
                 var x := t[i].owner; s[i] == Entry(x.timeout, x.ticket) && x.ticket < tickets && 0 <= x.timeout < U64
      ensures |Entries| == |timeouts.Items|
      ensures forall i | 0 <= i < |timeouts.Items| ::
                var x := timeouts.Items[i].owner;
                Entries[i] == Entry(x.timeout, x.ticket) && x.ticket < tickets && 0 <= x.timeout < U64
    {
      forall i | 0 <= i < |timeouts.Items|
        ensures var x := timeouts.Items[i].owner;
                Entries[i] == Entry(x.timeout, x.ticket) && x.ticket < tickets && 0 <= x.timeout < U64
      {
        assert timeouts.Items[i] == if i < k then t[i] else if i == k then h else t[i - 1];
        assert i != k ==> Entries[i] == if i < k then s[i] else s[i - 1];
      }
    }

    /** The first handle expires before all others, and nothing is due before it is. */
    lemma FirstIsEarliest(now: int)
      requires Valid()
      ensures forall h | h in timeouts.Items :: timeouts.Items[0].owner.timeout <= h.owner.timeout
      ensures Due(Entries, now) == 0 <==> forall h | h in timeouts.Items :: now < h.owner.timeout
    {
      var items := timeouts.Items;
      forall h | h in items ensures items[0].owner.timeout <= h.owner.timeout {
        var i :| 0 <= i < |items| && items[i] == h;
        assert i == 0 || Before(Entries[0], Entries[i]);
      }
      if items != [] {
        assert items[0] in items && Entries[0].deadline == items[0].owner.timeout;
      }
    }

    /** Take a handle out if it is in the set. */
    method Rm(h: Hndl) returns (first: bool)
      requires Valid() && (h.IsInList() <==> h in timeouts.Items)
      modifies this`Entries, timeouts, timeouts.Items
      ensures Valid() && !h.IsInList() && timeouts.Items == Without(old(timeouts.Items), h)
      ensures forall x | x in timeouts.Items :: x in old(timeouts.Items) && x != h
      ensures forall x | x in old(timeouts.Items) && x != h :: x in timeouts.Items
      ensures h !in old(timeouts.Items) ==> !first && Entries == old(Entries)
      ensures h in old(timeouts.Items) ==>
                var k := Find(old(timeouts.Items), h);
                Entries == old(Entries)[..k] + old(Entries)[k + 1..] && (first <==> k == 0)
    {
      hide L.List.Valid, Sorted, Without, Find;
      if !h.IsInList() {
        return false;
      }
      var begin := timeouts.Begin();
      first := begin == h;
      ghost var k := Find(timeouts.Items, h);
      NoneTwice();
      WithoutExact(timeouts.Items, h);
      TakeOut(h, k);
    }

    method TakeOut(h: Hndl, ghost k: nat)
      requires Valid() && k < |timeouts.Items| && timeouts.Items[k] == h && h !in timeouts.Items[..k]
      modifies this`Entries, timeouts, timeouts.Items
      ensures Valid() && !h.IsInList() && timeouts.Items == Without(old(timeouts.Items), h)
      ensures timeouts.Items == old(timeouts.Items)[..k] + old(timeouts.Items)[k + 1..]
      ensures Entries == old(Entries)[..k] + old(Entries)[k + 1..]
    {
      hide L.List.Valid, Sorted, Without;
      WithoutAt(timeouts.Items, k);
      RemoveKeepsSorted(Entries, k);
      var _ := timeouts.Erase(h, k);
      Entries := Entries[..k] + Entries[k + 1..];
    }

    lemma NoneTwice()
      requires Valid()
      ensures NoDup(timeouts.Items)
    {
    }

    /** The time until the first deadline: -1 for none. */
    method Timeout(now: int) returns (timeout: int)
      requires Valid()
      ensures timeout == -1 <==> timeouts.Items == []
      ensures timeouts.Items != [] ==> timeout == WaitFor(timeouts.Items[0].owner.timeout, now)
    {
      var it := timeouts.Begin();
      if it == null {
        return -1;
      }
      timeout := ToInt((it.owner.timeout - now) % U64);
      if timeout < 0 {
        timeout := 0;
      }
    }

    /** The first handle if it is due; null is -EAGAIN. */
    method Event(now: int) returns (h: L.ListItem?<Expiry>)
      requires Valid()
      modifies this`Entries, timeouts, timeouts.Items
      ensures Valid()
      ensures h == null <==> Due(old(Entries), now) == 0
      ensures h == null ==> timeouts.Items == old(timeouts.Items) && Entries == old(Entries)
      ensures h != null ==>
                && old(timeouts.Items) != [] && h == old(timeouts.Items)[0] && !h.IsInList() && h !in timeouts.Items
                && timeouts.Items == old(timeouts.Items)[1..] && Entries == old(Entries)[1..]
    {
      hide L.List.Valid, Sorted, Without;
      h := timeouts.Begin();
      if h == null || h.owner.timeout > now {
        return null;
      }
      NoneTwice();
      TakeOut(h, 0);
      assert old(Entries)[..0] + old(Entries)[1..] == old(Entries)[1..];
    }

    lemma InOrder()
      requires Valid()
      ensures |Entries| == |timeouts.Items| && Sorted(Entries)
    {
    }

    /** The worker's loop: events until none is due.  `clock` holds the readings
        of the successive calls.  What fires is a prefix, in order, and nothing
        that was due when the loop began is left. */
    method Expire(clock: seq<int>) returns (fired: seq<Hndl>)
      requires Valid() && |clock| == |timeouts.Items| + 1
      requires forall i, j | 0 <= i < j < |clock| :: clock[i] <= clock[j]
      modifies this`Entries, timeouts, timeouts.Items
      ensures Valid() && fired + timeouts.Items == old(timeouts.Items)
      ensures |fired| <= |old(Entries)| && Entries == old(Entries)[|fired|..]
      ensures forall i | 0 <= i < |fired| :: old(Entries)[i].deadline <= clock[i]
      ensures forall i | |fired| <= i < |old(Entries)| :: clock[|fired|] < old(Entries)[i].deadline
      ensures forall i | 0 <= i < |old(Entries)| && old(Entries)[i].deadline <= clock[0] :: i < |fired|
    {
      hide Valid, Sorted, Due, Records;
      InOrder();
      fired := [];
      while true
        invariant Valid() && |Entries| == |timeouts.Items| && Sorted(Entries)
        invariant |fired| <= |old(timeouts.Items)|
        invariant timeouts.Items == old(timeouts.Items)[|fired|..] && fired == old(timeouts.Items)[..|fired|]
        invariant |fired| <= |old(Entries)| && Entries == old(Entries)[|fired|..]
        invariant forall j | 0 <= j < |fired| :: old(Entries)[j].deadline <= clock[j]
        decreases |timeouts.Items|
      {
        DueIsPrefix(Entries, clock[|fired|]);
        assert forall x | x in timeouts.Items :: x in old(timeouts.Items);
        var h := Event(clock[|fired|]);
        if h == null {
          forall i | |fired| <= i < |old(Entries)| ensures clock[|fired|] < old(Entries)[i].deadline {
            assert old(Entries)[i] == Entries[i - |fired|];
          }
          return;
        }
        fired := fired + [h];
        InOrder();
      }
    }
  }

  lemma RemoveKeepsSorted(s: seq<Entry>, k: nat)
    requires Sorted(s) && k < |s|
    ensures Sorted(s[..k] + s[k + 1..])
  {
  }

  lemma PlaceIs(s: seq<Entry>, deadline: int, k: nat)
    requires k <= |s| && (forall j | 0 <= j < k :: s[j].deadline <= deadline)
    requires k < |s| ==> deadline < s[k].deadline
    ensures Place(s, deadline) == k
  {
  }
}
