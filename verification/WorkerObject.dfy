/** The worker as an object: the queue of tasks and the batch are intrusive queues,
    the running timers are in a timer set.  Each method does what its step in
    TimerWorker says. */
module WorkerObjects {
  import opened Outcome
  import Q = Queues
  import L = Lists
  import TS = TimerSets
  import TW = TimerWorker

  type TaskItem = Q.Item<TW.Task>

  /** What the items of a queue are part of. */
  function Owners(s: seq<TaskItem>): seq<TW.Task>
  {
    seq(|s|, i requires 0 <= i < |s| => s[i].owner)
  }

  lemma OwnersNone(s: seq<TaskItem>)
    ensures Owners(s) == [] <==> s == []
  {
  }

  lemma OwnersPush(s: seq<TaskItem>, x: TaskItem)
    ensures Owners(s + [x]) == Owners(s) + [x.owner]
  {
  }

  lemma OwnersPop(s: seq<TaskItem>)
    requires s != []
    ensures Owners(s) != [] && Owners(s)[0] == s[0].owner && Owners(s[1..]) == Owners(s)[1..]
  {
  }

  class Worker {
    const tasks: Q.Queue<TW.Task>
    const batch: Q.Queue<TW.Task>
    const timerset: TS.TimerSet
    var efd: bool
    var hand: TW.Hand
    /** The items and handles of the timers that use this worker. */
    ghost var Items: map<TW.Task, TaskItem>
    ghost var Handles: map<TW.Id, TS.Hndl>

    ghost function Foot(): set<object>
      reads this`Items, this`Handles
    {
      {this, tasks, batch, timerset, timerset.timeouts} + (set x | x in Items :: Items[x] as object)
      + (set t | t in Handles :: Handles[t] as object) + (set t | t in Handles :: Handles[t].owner as object)
    }

    /** Each task and each handle is the one its timer has. */
    ghost predicate Known()
      reads this`Items, this`Handles, tasks, batch, timerset.timeouts
    {
      && tasks != batch
      && (forall x | x in Items :: Items[x].owner == x)
      && (forall t | t in Handles :: Handles[t].owner.timer == t)
      && (forall x | x in tasks.Items :: x.owner in Items && Items[x.owner] == x && x !in batch.Items)
      && (forall x | x in batch.Items :: x.owner in Items && Items[x.owner] == x)
      && (forall h | h in timerset.timeouts.Items :: h.owner.timer in Handles && Handles[h.owner.timer] == h)
    }

    /** An item says that it is queued only if it is, a handle likewise. */
    ghost predicate Truthful()
      reads this`Items, this`Handles, Foot()
    {
      && (forall x | x in Items && Items[x].InQueue() :: Items[x] in tasks.Items || Items[x] in batch.Items)
      && (forall t | t in Handles && Handles[t].IsInList() :: Handles[t] in timerset.timeouts.Items)
    }

    /** What is queued is in the worker's footprint. */
    ghost predicate Inside()
      reads this`Items, this`Handles, tasks, batch, timerset.timeouts
    {
      && {this, tasks, batch, timerset, timerset.timeouts} <= Foot()
      && (forall x | x in Items :: Items[x] in Foot())
      && (forall t | t in Handles :: Handles[t] in Foot() && Handles[t].owner in Foot())
      && (forall x | x in tasks.Items :: x in Foot()) && (forall x | x in batch.Items :: x in Foot())
      && (forall h | h in timerset.timeouts.Items :: h in Foot() && h.owner in Foot())
    }

    ghost predicate Valid()
      reads this`Items, this`Handles, Foot()
    {
      Known() && Inside() && tasks.Valid() && batch.Valid() && timerset.Valid() && Truthful()
    }

    ghost function Abs(): TW.Worker
      reads this, Foot()
    {
      TW.Worker(Owners(tasks.Items), Owners(batch.Items), efd, Armed(), hand)
    }

    ghost function Expiries(): set<object>
      reads this`Handles
    {
      set t | t in Handles :: Handles[t].owner as object
    }

    /** The deadlines of the running timers. */
    ghost function Armed(): map<TW.Id, int>
      reads this`Handles, timerset.timeouts, Expiries()
    {
      map t | t in Handles && Handles[t] in timerset.timeouts.Items :: Handles[t].owner.timeout
    }

    lemma Placed()
      ensures forall o | o in Foot() :: allocated(o)
    {
    }

    lemma KnownIsInside()
      requires Known()
      ensures Inside()
    {
    }

    constructor ()
      ensures Valid() && Abs() == TW.EMPTY.w && Items == map[] && Handles == map[]
      ensures fresh(tasks) && fresh(batch) && fresh(timerset) && fresh(timerset.timeouts)
    {
      hide Known, Truthful;
      hide Foot, Owners;
      tasks := new Q.Queue<TW.Task>();
      batch := new Q.Queue<TW.Task>();
      timerset := new TS.TimerSet();
      efd, hand, Items, Handles := false, TW.Nothing, map[], map[];
      new;
      assert tasks.Valid() && batch.Valid() && timerset.Valid();
      hide Q.Queue.Valid, TS.TimerSet.Valid, Valid, Abs;
      NewIs();
    }

    /** A worker that nobody uses yet. */
    lemma NewIs()
      requires tasks.Valid() && batch.Valid() && timerset.Valid() && tasks != batch
      requires Items == map[] && Handles == map[]
      requires tasks.Items == [] && batch.Items == [] && timerset.timeouts.Items == [] && !efd && hand == TW.Nothing
      ensures Valid() && Abs() == TW.EMPTY.w
    {
      hide Q.Queue.Valid, TS.TimerSet.Valid, Owners, Foot;
      OwnersNone([]);
      KnownIsInside();
    }

    lemma QueuedIs(item: TaskItem)
      requires Valid() && item.owner in Items && Items[item.owner] == item
      ensures item.InQueue() <==> item in tasks.Items || item in batch.Items
      ensures item.owner in Owners(tasks.Items) <==> item in tasks.Items
      ensures item.owner in Owners(batch.Items) <==> item in batch.Items
      ensures tasks.tail != null ==> tasks.tail in tasks.Items
    {
      OwnerIn(tasks.Items, item);
      OwnerIn(batch.Items, item);
      if tasks.tail != null {
        assert tasks.tail in tasks.Items;
      }
    }

    lemma OwnerIn(s: seq<TaskItem>, item: TaskItem)
      requires forall x | x in s :: x.owner in Items && Items[x.owner] == x
      requires item.owner in Items && Items[item.owner] == item
      ensures item.owner in Owners(s) <==> item in s
    {
      if item.owner in Owners(s) {
        var i :| 0 <= i < |s| && Owners(s)[i] == item.owner;
        assert s[i] in s;
      }
      if item in s {
        var i :| 0 <= i < |s| && s[i] == item;
        assert Owners(s)[i] == item.owner;
      }
    }

    /** What is not about the timer set leaves the deadlines alone. */
    twostate lemma SameDeadlines()
      requires Handles == old(Handles) && timerset.timeouts.Items == old(timerset.timeouts.Items)
      requires forall t | t in Handles :: unchanged(Handles[t].owner)
      ensures Armed() == old(Armed())
    {
    }

    /** Queue a task and wake the thread; refused if the task is queued. */
    method Execute(item: TaskItem) returns (ok: bool)
      requires Valid() && item.owner in Items && Items[item.owner] == item
      modifies Foot()
      ensures Valid() && Items == old(Items) && Handles == old(Handles)
      ensures ok <==> TW.Execute(old(Abs()), item.owner).Ok?
      ensures ok ==> TW.Execute(old(Abs()), item.owner) == Ok(Abs())
      ensures ok <==> item.owner !in old(Abs()).shared && item.owner !in old(Abs()).local
      ensures Abs() == if ok then old(Abs()).(shared := old(Abs()).shared + [item.owner], efd := true) else old(Abs())
    {
      hide Owners, Q.Queue.Valid, TS.TimerSet.Valid, Foot;
      QueuedIs(item);
      if item.InQueue() {
        return false;
      }
      tasks.Push(item);
      efd := true;
      OwnersPush(old(tasks.Items), item);
      SameDeadlines();
      timerset.Untouched();
      KnownIsInside();
      return true;
    }

    lemma HandleIs(h: TS.Hndl)
      requires Valid() && h.owner.timer in Handles && Handles[h.owner.timer] == h
      ensures h.IsInList() <==> h in timerset.timeouts.Items
      ensures h.IsInList() <==> h.owner.timer in Armed()
      ensures forall x | x in timerset.timeouts.Items && x != h :: x.owner != h.owner
    {
    }

    /** Put a handle into the timer set; refused if it is in. */
    method AddTimer(timeout: int, h: TS.Hndl, now: int) returns (ok: bool)
      requires Valid() && h.owner.timer in Handles && Handles[h.owner.timer] == h
      modifies Foot()
      ensures Valid() && Items == old(Items) && Handles == old(Handles)
      ensures ok <==> h.owner.timer !in old(Armed())
      ensures ok ==> Abs() == old(Abs()).(armed := old(Armed())[h.owner.timer := (now + timeout) % TS.CInts.U64])
      ensures !ok ==> Abs() == old(Abs())
    {
      hide Owners, Q.Queue.Valid, TS.TimerSet.Valid, Foot, TS.Insert, TS.Place, Armed, Truthful, Known;
      HandleIs(h);
      if h.IsInList() {
        return false;
      }
      SetOnly(h);
      var _ := timerset.Add(timeout, h, now);
      OneIn(h);
      return true;
    }

    /** A handle is not part of what else the worker has. */
    lemma SetOnly(h: TS.Hndl)
      requires Valid() && h.owner.timer in Handles && Handles[h.owner.timer] == h
      ensures forall t | t in Handles && Handles[t] != h :: Handles[t].owner != h.owner
    {
    }

    /** One handle more in the timer set, and nothing else changed. */
    twostate lemma OneIn(h: TS.Hndl)
      requires old(Valid()) && h !in old(timerset.timeouts.Items) && h.IsInList()
      requires h.owner.timer in Handles && Handles[h.owner.timer] == h
      requires Items == old(Items) && Handles == old(Handles) && timerset.Valid()
      requires h in timerset.timeouts.Items
      requires forall x | x in timerset.timeouts.Items && x != h :: x in old(timerset.timeouts.Items)
      requires forall x | x in old(timerset.timeouts.Items) :: x in timerset.timeouts.Items
      requires unchanged(tasks) && unchanged(batch) && forall x | x in Items :: unchanged(Items[x])
      requires forall t | t in Handles && Handles[t] != h && Handles[t] !in old(timerset.timeouts.Items) ::
                 unchanged(Handles[t])
      requires forall t | t in Handles && Handles[t] != h :: unchanged(Handles[t].owner)
      ensures Valid() && Armed() == old(Armed())[h.owner.timer := h.owner.timeout]
    {
      hide Q.Queue.Valid, TS.TimerSet.Valid, Foot;
      tasks.Untouched();
      batch.Untouched();
      KnownIsInside();
    }

    /** One handle less in the timer set, and nothing else changed. */
    twostate lemma OneOut(h: TS.Hndl)
      requires old(Valid()) && h in old(timerset.timeouts.Items) && !h.IsInList()
      requires Items == old(Items) && Handles == old(Handles) && timerset.Valid()
      requires forall x | x in timerset.timeouts.Items :: x in old(timerset.timeouts.Items) && x != h
      requires forall x | x in old(timerset.timeouts.Items) && x != h :: x in timerset.timeouts.Items
      requires unchanged(tasks) && unchanged(batch) && forall x | x in Items :: unchanged(Items[x])
      requires forall t | t in Handles && Handles[t] !in old(timerset.timeouts.Items) :: unchanged(Handles[t])
      requires forall t | t in Handles :: unchanged(Handles[t].owner)
      ensures Valid() && Armed() == old(Armed()) - {h.owner.timer}
    {
      hide Q.Queue.Valid, TS.TimerSet.Valid, Foot;
      tasks.Untouched();
      batch.Untouched();
      KnownIsInside();
    }

    method RmTimer(h: TS.Hndl)
      requires Valid() && h.owner.timer in Handles && Handles[h.owner.timer] == h
      modifies Foot()
      ensures Valid() && Items == old(Items) && Handles == old(Handles)
      ensures Abs() == old(Abs()).(armed := old(Armed()) - {h.owner.timer})
    {
      hide Armed, Truthful, Known, Owners, Q.Queue.Valid, TS.TimerSet.Valid, Foot;
      HandleIs(h);
      var _ := timerset.Rm(h);
      if h in old(timerset.timeouts.Items) {
        OneOut(h);
      } else {
        Kept();
      }
    }

    /** Under the lock: the wake-up is consumed together with the whole queue. */
    method TakeTasks()
      requires Valid() && batch.Items == []
      modifies Foot()
      ensures Valid() && Items == old(Items) && Handles == old(Handles)
      ensures Abs() == TW.TakeTasks(old(Abs()))
      ensures Abs() == old(Abs()).(local := old(Abs()).shared, shared := [], efd := false)
    {
      hide Owners, Q.Queue.Valid, TS.TimerSet.Valid, Foot;
      InsideIs();
      OwnersNone([]);
      efd := false;
      batch.TakeFrom(tasks);
      timerset.Untouched();
      KnownIsInside();
    }

    lemma InsideIs()
      requires Valid()
      ensures (batch.Items != [] ==> batch.head == batch.Items[0])
      ensures batch.Items == [] ==> batch.head == null
    {
    }

    /** What the thread holds: a local variable of its routine. */
    method Hold(hand: TW.Hand)
      requires Valid()
      modifies this`hand
      ensures Valid() && Abs() == old(Abs()).(hand := hand) && Armed() == old(Armed()) && Foot() == old(Foot())
    {
      hide Foot, Known, Inside, Q.Queue.Valid, TS.TimerSet.Valid, Owners, Armed;
      this.hand := hand;
      timerset.Untouched();
      SameDeadlines();
    }

    /** The thread pops the next task of its batch. */
    method PopTask() returns (item: Q.Item?<TW.Task>)
      requires Valid()
      modifies Foot()
      ensures Valid() && Items == old(Items) && Handles == old(Handles)
      ensures item == null <==> old(Abs()).local == []
      ensures item == null ==> Abs() == old(Abs())
      ensures item != null ==>
                && item.owner == old(Abs()).local[0] && item.owner in Items && Items[item.owner] == item
                && Abs() == old(Abs()).(local := old(Abs()).local[1..], hand := TW.Running(item.owner))
    {
      hide Armed;
      hide Owners, Q.Queue.Valid, TS.TimerSet.Valid, Foot;
      InsideIs();
      ghost var s := batch.Items;
      OwnersNone(s);
      item := batch.Pop();
      if item != null {
        OwnersPop(s);
      }
      tasks.Untouched();
      timerset.Untouched();
      KnownIsInside();
      SameDeadlines();
      if item != null {
        Hold(TW.Running(item.owner));
      }
    }

    /** Nothing that was queued or set was written. */
    twostate lemma Kept()
      requires old(Valid()) && Items == old(Items) && Handles == old(Handles)
      requires unchanged(tasks) && unchanged(batch) && timerset.Valid()
      requires timerset.timeouts.Items == old(timerset.timeouts.Items)
      requires forall x | x in Items :: unchanged(Items[x])
      requires forall t | t in Handles && Handles[t] !in old(timerset.timeouts.Items) :: unchanged(Handles[t])
      requires forall t | t in Handles :: unchanged(Handles[t].owner)
      ensures Valid() && Armed() == old(Armed())
    {
      hide Q.Queue.Valid, TS.TimerSet.Valid, Foot;
      tasks.Untouched();
      batch.Untouched();
      KnownIsInside();
    }

    lemma FirstOfAll(now: int)
      requires Valid()
      ensures TS.Due(timerset.Entries, now) == 0 <==> forall t | t in Armed() :: now < Armed()[t]
      ensures TS.Due(timerset.Entries, now) != 0 && timerset.timeouts.Items != [] ==>
                var t := timerset.timeouts.Items[0].owner.timer;
                t in Handles && Handles[t] == timerset.timeouts.Items[0] && TW.FirstDue(Armed(), t, now)
    {
      hide Owners, Q.Queue.Valid, TS.TimerSet.Valid, TS.Due, Foot, Inside;
      timerset.FirstIsEarliest(now);
      assert forall x | x in timerset.timeouts.Items :: x.owner.timer in Armed() && Handles[x.owner.timer] == x;
      if timerset.timeouts.Items != [] {
        assert timerset.timeouts.Items[0] in timerset.timeouts.Items;
      }
    }

    /** The thread pops the first handle of the timer set if it is due. */
    method PopExpired(now: int) returns (h: L.ListItem?<TS.Expiry>)
      requires Valid()
      modifies Foot()
      ensures Valid() && Items == old(Items) && Handles == old(Handles)
      ensures h == null <==> forall t | t in old(Armed()) :: now < old(Armed())[t]
      ensures h == null ==> Abs() == old(Abs())
      ensures h != null ==>
                && h.owner.timer in Handles && Handles[h.owner.timer] == h
                && TW.FirstDue(old(Armed()), h.owner.timer, now)
                && Abs() == old(Abs()).(armed := old(Armed()) - {h.owner.timer}, hand := TW.Expiring(h.owner.timer))
    {
      hide Armed, Known, Truthful, Owners, Q.Queue.Valid, TS.TimerSet.Valid, TS.Due, Foot;
      InsideIs();
      FirstOfAll(now);
      h := timerset.Event(now);
      if h == null {
        Kept();
        return;
      }
      OneOut(h);
      Hold(TW.Expiring(h.owner.timer));
    }

    lemma NotSet(h: TS.Hndl)
      requires Valid() && !h.IsInList()
      ensures h !in timerset.timeouts.Items
    {
    }

    /** A timer is initialised for this worker. */
    ghost method Admit(t: TW.Id, start: TaskItem, stop: TaskItem, h: TS.Hndl)
      requires Valid() && start != stop && h.owner.timer == t && !h.IsInList()
      requires start.owner == TW.StartTask(t) && !start.InQueue() && stop.owner == TW.StopTask(t) && !stop.InQueue()
      requires start.owner !in Items && stop.owner !in Items && t !in Handles
      modifies this`Items, this`Handles
      ensures Valid() && Abs() == old(Abs())
      ensures Items == old(Items)[start.owner := start][stop.owner := stop] && Handles == old(Handles)[t := h]
    {
      hide Owners, Q.Queue.Valid, TS.TimerSet.Valid, Foot;
      NotSet(h);
      Items := Items[start.owner := start][stop.owner := stop];
      Handles := Handles[t := h];
      timerset.Untouched();
      KnownIsInside();
    }
  }
}
