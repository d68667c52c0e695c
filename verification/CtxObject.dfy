/** The context in place: raising events and the two loops of nn_ctx_leave. */
module CtxObjects {
  import opened Seqs
  import Q = Queues

  type Ev = nat

  type Item = Q.Item<Ev>

  /** What the handler of an event raises: here, and for others. */
  datatype Reaction = Reaction(here: seq<Item>, others: seq<Item>)

  const NOTHING := Reaction([], [])

  function At(script: seq<Reaction>, k: nat): Reaction
  {
    if k < |script| then script[k] else NOTHING
  }

  /** What the handlers number k to k + n - 1 raise here, in order. */
  function RaisedHere(script: seq<Reaction>, k: nat, n: nat): seq<Item>
    decreases n
  {
    if n == 0 then [] else At(script, k).here + RaisedHere(script, k + 1, n - 1)
  }

  function RaisedFor(script: seq<Reaction>, k: nat, n: nat): seq<Item>
    decreases n
  {
    if n == 0 then [] else At(script, k).others + RaisedFor(script, k + 1, n - 1)
  }

  function Elements(s: seq<Item>): set<Item>
  {
    set x | x in s
  }

  /** Items can be pushed, one after the other, when none of them is linked. */
  ghost predicate Pushable(linked: set<Item>, s: seq<Item>)
  {
    NoDup(s) && forall e | e in s :: e !in linked
  }

  lemma Refused(linked: set<Item>, done: seq<Item>, e: Item, rest: seq<Item>)
    requires e in linked || e in done
    ensures !Pushable(linked, done + [e] + rest)
  {
    var all := done + [e] + rest;
    assert all[|done|] == e;
    if e in done {
      assert all[Find(done, e)] == e;
    }
  }

  lemma OneMore(linked: set<Item>, done: seq<Item>, e: Item)
    requires Pushable(linked, done) && e !in linked && e !in done
    ensures Pushable(linked, done + [e]) && Elements(done + [e]) == Elements(done) + {e}
  {
  }

  lemma NothingPushed(linked: set<Item>)
    ensures Pushable(linked, []) && linked + Elements([]) == linked
  {
  }

  /** One push of a sequence of pushes. */
  lemma OnePush(linked: set<Item>, s: seq<Item>, i: nat)
    requires i < |s| && Pushable(linked, s[..i])
    ensures s[i] in linked + Elements(s[..i]) ==> !Pushable(linked, s)
    ensures s[i] !in linked + Elements(s[..i]) ==> Pushable(linked, s[..i + 1])
    ensures linked + Elements(s[..i]) + {s[i]} == linked + Elements(s[..i + 1])
  {
    assert s[..i + 1] == s[..i] + [s[i]];
    assert s == s[..i] + [s[i]] + s[i + 1..];
    if s[i] in linked + Elements(s[..i]) {
      Refused(linked, s[..i], s[i], s[i + 1..]);
    } else {
      OneMore(linked, s[..i], s[i]);
    }
  }

  lemma BothPushed(linked: set<Item>, s: seq<Item>, t: seq<Item>)
    ensures Pushable(linked, s + t) <==> Pushable(linked, s) && Pushable(linked + Elements(s), t)
    ensures linked + Elements(s) + Elements(t) == linked + Elements(s + t)
  {
    if Pushable(linked, s + t) {
      PushableParts(linked, s, t);
    } else if Pushable(linked, s) && Pushable(linked + Elements(s), t) {
      PushableWhole(linked, s, t);
    }
  }

  lemma PushableParts(linked: set<Item>, s: seq<Item>, t: seq<Item>)
    requires Pushable(linked, s + t)
    ensures Pushable(linked, s) && Pushable(linked + Elements(s), t)
  {
    var all := s + t;
    assert forall i | 0 <= i < |s| :: all[i] == s[i];
    assert forall j | 0 <= j < |t| :: all[|s| + j] == t[j];
  }

  lemma PushableWhole(linked: set<Item>, s: seq<Item>, t: seq<Item>)
    requires Pushable(linked, s) && Pushable(linked + Elements(s), t)
    ensures Pushable(linked, s + t)
  {
    assert forall e | e in s :: e in Elements(s);
    BehindApart(s, t);
  }

  datatype Drained = Drained(ok: bool, processed: seq<Item>, batch: seq<Item>)

  /** The drain from the k-th handler on; `linked` are the items that are on a queue, of
      this context, of another, or of a batch under way.  It stops at a push of one. */
  ghost function Drain(events: seq<Item>, eventsto: seq<Item>, linked: set<Item>,
                       script: seq<Reaction>, k: nat): Drained
    decreases if k < |script| then |script| - k else 0, |events|
  {
    if events == [] then Drained(true, [], eventsto)
    else
      var r := At(script, k);
      var free := linked - {events[0]};
      if !Pushable(free, r.here + r.others) then Drained(false, [], [])
      else
        var rest := Drain(events[1..] + r.here, eventsto + r.others, free + Elements(r.here + r.others), script, k + 1);
        Drained(rest.ok, [events[0]] + rest.processed, rest.batch)
  }

  /** What a drain amounts to behind the events already processed. */
  ghost function After(processed: seq<Item>, d: Drained): Drained
  {
    if d.ok then Drained(true, processed + d.processed, d.batch) else Drained(false, [], [])
  }

  lemma NothingToDrain(eventsto: seq<Item>, linked: set<Item>, script: seq<Reaction>, k: nat)
    ensures Drain([], eventsto, linked, script, k) == Drained(true, [], eventsto)
  {
  }

  lemma AfterAll(whole: Drained, processed: seq<Item>, batch: seq<Item>)
    ensures After([], whole) == After(processed, Drained(true, [], batch)) ==>
              whole.ok && whole.processed == processed && whole.batch == batch
    ensures After([], whole) == Drained(false, [], []) ==> !whole.ok
  {
    assert processed + [] == processed && [] + whole.processed == whole.processed;
  }

  /** One event of the drain. */
  lemma OneEvent(events: seq<Item>, eventsto: seq<Item>, linked: set<Item>, script: seq<Reaction>, processed: seq<Item>)
    requires events != []
    ensures var r := At(script, |processed|);
            var free := linked - {events[0]};
            After(processed, Drain(events, eventsto, linked, script, |processed|)) ==
              if Pushable(free, r.here + r.others)
              then After(processed + [events[0]],
                         Drain(events[1..] + r.here, eventsto + r.others, free + Elements(r.here + r.others),
                               script, |processed| + 1))
              else Drained(false, [], [])
  {
  }

  /** Every item is on one queue at most, and its link says so. */
  ghost predicate OneQueue(events: seq<Item>, eventsto: seq<Item>, linked: set<Item>)
  {
    && NoDup(events) && NoDup(eventsto) && (forall e | e in events :: e in linked && e !in eventsto)
    && (forall e | e in eventsto :: e in linked)
  }

  lemma PushesKeepOneQueue(events: seq<Item>, eventsto: seq<Item>, linked: set<Item>,
                           here: seq<Item>, others: seq<Item>)
    requires OneQueue(events, eventsto, linked) && events != []
    requires Pushable(linked - {events[0]}, here + others)
    ensures OneQueue(events[1..] + here, eventsto + others, linked - {events[0]} + Elements(here + others))
  {
    var free := linked - {events[0]};
    BothPushed(free, here, others);
    assert forall e | e in events[1..] :: e in free;
    assert forall e | e in eventsto :: e in free;
    BehindApart(events[1..], here);
    BehindApart(eventsto, others);
    assert forall e | e in here || e in others :: e in here + others;
    assert forall e | e in others :: e in Elements(others);
    assert forall e | e in here :: e in free + Elements(here);
  }

  lemma BehindApart(s: seq<Item>, t: seq<Item>)
    requires NoDup(s) && NoDup(t) && forall e | e in s :: e !in t
    ensures NoDup(s + t)
  {
    var all := s + t;
    forall i, j | 0 <= i < j < |all| ensures all[i] != all[j] {
      if i < |s| <= j {
        assert s[i] in s && t[j - |s|] in t;
      }
    }
  }

  /** A drain processes everything raised before or meanwhile once, in the order of
      raising, an event raised again by its own handler included, and hands over the
      events for others in the order of raising. */
  lemma {:induction false} DrainIsComplete(events: seq<Item>, eventsto: seq<Item>, linked: set<Item>,
                                           script: seq<Reaction>, k: nat)
    requires Drain(events, eventsto, linked, script, k).ok
    ensures var d := Drain(events, eventsto, linked, script, k);
            && d.processed == events + RaisedHere(script, k, |d.processed|)
            && d.batch == eventsto + RaisedFor(script, k, |d.processed|)
    decreases if k < |script| then |script| - k else 0, |events|
  {
    hide Pushable, Elements;
    if events != [] {
      var r := At(script, k);
      DrainIsComplete(events[1..] + r.here, eventsto + r.others, linked - {events[0]} + Elements(r.here + r.others),
                      script, k + 1);
      var n := |Drain(events, eventsto, linked, script, k).processed|;
      assert events == [events[0]] + events[1..];
      assert RaisedHere(script, k, n) == r.here + RaisedHere(script, k + 1, n - 1);
      assert RaisedFor(script, k, n) == r.others + RaisedFor(script, k + 1, n - 1);
    }
  }

  /** ... and none of those twice. */
  lemma {:induction false} BatchHasEachOnce(events: seq<Item>, eventsto: seq<Item>, linked: set<Item>,
                                            script: seq<Reaction>, k: nat)
    requires OneQueue(events, eventsto, linked) && Drain(events, eventsto, linked, script, k).ok
    ensures NoDup(Drain(events, eventsto, linked, script, k).batch)
    decreases if k < |script| then |script| - k else 0, |events|
  {
    if events != [] {
      var r := At(script, k);
      PushesKeepOneQueue(events, eventsto, linked, r.here, r.others);
      BatchHasEachOnce(events[1..] + r.here, eventsto + r.others, linked - {events[0]} + Elements(r.here + r.others),
                       script, k + 1);
    }
  }

  /** The drain gets to its n-th event. */
  ghost predicate Reached(events: seq<Item>, script: seq<Reaction>, k: nat, n: nat)
  {
    forall m: nat | m <= n :: |events + RaisedHere(script, k, m)| > m
  }

  /** When the n-th event is being processed, its handler raises, each once, items that are
      not on a queue: not on a foreign one, not among the events still to process, and not
      among those collected for others. */
  ghost predicate RaisesFree(events: seq<Item>, eventsto: seq<Item>, foreign: set<Item>, script: seq<Reaction>,
                             k: nat, n: nat)
    requires |events + RaisedHere(script, k, n)| > n
  {
    var waiting := (events + RaisedHere(script, k, n))[n + 1..] + (eventsto + RaisedFor(script, k, n));
    var s := At(script, k + n).here + At(script, k + n).others;
    NoDup(s) && forall e | e in s :: e !in foreign && e !in waiting
  }

  lemma FirstFree(events: seq<Item>, eventsto: seq<Item>, foreign: set<Item>, script: seq<Reaction>, k: nat)
    requires events != [] && NoDup(events + eventsto) && forall e | e in events + eventsto :: e !in foreign
    ensures Reached(events, script, k, 0)
    ensures var linked := foreign + Elements(events + eventsto);
            RaisesFree(events, eventsto, foreign, script, k, 0) <==>
              Pushable(linked - {events[0]}, At(script, k).here + At(script, k).others)
  {
    assert events + RaisedHere(script, k, 0) == events && eventsto + RaisedFor(script, k, 0) == eventsto;
    assert events + eventsto == [events[0]] + (events[1..] + eventsto);
    RestLinked(events[0], events[1..] + eventsto, foreign);
  }

  lemma RestLinked(e: Item, rest: seq<Item>, foreign: set<Item>)
    requires NoDup([e] + rest) && e !in foreign
    ensures foreign + Elements([e] + rest) - {e} == foreign + Elements(rest)
    ensures e !in rest && NoDup(rest)
  {
    var all := [e] + rest;
    assert forall i | 0 <= i < |rest| :: rest[i] == all[i + 1];
    assert all[0] == e;
  }

  /** The handler of the first event was let through. */
  lemma AfterFirst(events: seq<Item>, eventsto: seq<Item>, foreign: set<Item>, r: Reaction)
    requires events != [] && NoDup(events + eventsto) && forall e | e in events + eventsto :: e !in foreign
    requires Pushable(foreign + Elements(events + eventsto) - {events[0]}, r.here + r.others)
    ensures var events2, eventsto2 := events[1..] + r.here, eventsto + r.others;
            && NoDup(events2 + eventsto2) && (forall e | e in events2 + eventsto2 :: e !in foreign)
            && foreign + Elements(events + eventsto) - {events[0]} + Elements(r.here + r.others)
               == foreign + Elements(events2 + eventsto2)
  {
    var rest, new_ := events[1..] + eventsto, r.here + r.others;
    assert events + eventsto == [events[0]] + rest;
    RestLinked(events[0], rest, foreign);
    assert NoDup(rest) && forall e | e in rest :: e in Elements(rest);
    BehindApart(rest, new_);
    Shuffled(events[1..], eventsto, r.here, r.others);
    assert forall e :: e in (events[1..] + r.here) + (eventsto + r.others) <==> e in rest + new_;
  }

  lemma Shuffled(a: seq<Item>, b: seq<Item>, c: seq<Item>, d: seq<Item>)
    requires NoDup((a + b) + (c + d))
    ensures NoDup((a + c) + (b + d))
  {
    var s, t := (a + b) + (c + d), (a + c) + (b + d);
    hide NoDup;
    assert forall i | 0 <= i < |t| :: t[i] == s[Moved(|a|, |b|, |c|, i)];
    MovedApart(s, t, |a|, |b|, |c|);
  }

  lemma MovedApart(s: seq<Item>, t: seq<Item>, a: nat, b: nat, c: nat)
    requires NoDup(s) && |s| == |t| && a + b + c <= |s|
    requires forall i | 0 <= i < |t| :: t[i] == s[Moved(a, b, c, i)]
    ensures NoDup(t)
  {
    forall i, j | 0 <= i < j < |t| ensures t[i] != t[j] {
      var p, q := Moved(a, b, c, i), Moved(a, b, c, j);
      assert p != q && t[i] == s[p] && t[j] == s[q];
    }
  }

  /** Where the i-th element of (a + c) + (b + d) is in (a + b) + (c + d). */
  function Moved(a: nat, b: nat, c: nat, i: nat): (k: nat)
    ensures k <= i || k < a + b + c
  {
    if i < a then i else if i < a + c then i + b else if i < a + c + b then i - c else i
  }

  lemma HereIs(events: seq<Item>, script: seq<Reaction>, k: nat, m: nat)
    requires events != []
    ensures events + RaisedHere(script, k, m + 1) ==
            [events[0]] + (events[1..] + At(script, k).here + RaisedHere(script, k + 1, m))
  {
    assert RaisedHere(script, k, m + 1) == At(script, k).here + RaisedHere(script, k + 1, m);
  }

  /** Behind the first event the drain goes on as one of its own. */
  lemma LaterReached(events: seq<Item>, script: seq<Reaction>, k: nat, n: nat)
    requires events != []
    ensures Reached(events, script, k, n + 1) <==> Reached(events[1..] + At(script, k).here, script, k + 1, n)
  {
    hide RaisedHere;
    var events2, later := events[1..] + At(script, k).here, k + 1;
    if Reached(events, script, k, n + 1) {
      forall m: nat | m <= n ensures |events2 + RaisedHere(script, later, m)| > m {
        HereIs(events, script, k, m);
        assert |events + RaisedHere(script, k, m + 1)| > m + 1;
      }
    }
    if Reached(events2, script, k + 1, n) {
      forall m: nat | m <= n + 1 ensures |events + RaisedHere(script, k, m)| > m {
        if m > 0 {
          HereIs(events, script, k, m - 1);
          assert |events2 + RaisedHere(script, later, m - 1)| > m - 1;
        }
      }
    }
  }

  lemma LaterFree(events: seq<Item>, eventsto: seq<Item>, foreign: set<Item>, script: seq<Reaction>, k: nat, n: nat)
    requires events != [] && |events + RaisedHere(script, k, n + 1)| > n + 1
    ensures var r := At(script, k);
            && |events[1..] + r.here + RaisedHere(script, k + 1, n)| > n
            && (RaisesFree(events, eventsto, foreign, script, k, n + 1) <==>
                  RaisesFree(events[1..] + r.here, eventsto + r.others, foreign, script, k + 1, n))
  {
    var r := At(script, k);
    HereIs(events, script, k, n);
    var q, q2 := events + RaisedHere(script, k, n + 1), events[1..] + r.here + RaisedHere(script, k + 1, n);
    assert q[n + 2..] == q2[n + 1..];
    assert eventsto + RaisedFor(script, k, n + 1) == eventsto + r.others + RaisedFor(script, k + 1, n);
  }

  lemma LaterOnes(events: seq<Item>, eventsto: seq<Item>, foreign: set<Item>, script: seq<Reaction>, k: nat,
                  later: nat)
    requires later == k + 1 && events != [] && RaisesFree(events, eventsto, foreign, script, k, 0)
    ensures var r := At(script, k);
            (forall n: nat | Reached(events, script, k, n) :: RaisesFree(events, eventsto, foreign, script, k, n)) <==>
            (forall n: nat | Reached(events[1..] + r.here, script, later, n) ::
               RaisesFree(events[1..] + r.here, eventsto + r.others, foreign, script, later, n))
  {
    hide RaisedHere, RaisedFor, RaisesFree;
    var events2, eventsto2 := events[1..] + At(script, k).here, eventsto + At(script, k).others;
    if forall n: nat | Reached(events, script, k, n) :: RaisesFree(events, eventsto, foreign, script, k, n) {
      forall n: nat | Reached(events2, script, later, n)
        ensures RaisesFree(events2, eventsto2, foreign, script, later, n)
      {
        LaterReached(events, script, k, n);
        assert |events + RaisedHere(script, k, n + 1)| > n + 1;
        LaterFree(events, eventsto, foreign, script, k, n);
      }
    }
    if forall n: nat | Reached(events2, script, later, n) :: RaisesFree(events2, eventsto2, foreign, script, later, n) {
      forall n: nat | Reached(events, script, k, n) ensures RaisesFree(events, eventsto, foreign, script, k, n) {
        if n > 0 {
          LaterReached(events, script, k, n - 1);
          assert |events + RaisedHere(script, k, n)| > n;
          LaterFree(events, eventsto, foreign, script, k, n - 1);
        }
      }
    }
  }

  /** A drain comes to its end exactly if no handler that is reached raises an item that is
      on a queue then. */
  lemma {:induction false} DrainFaultsExactly(events: seq<Item>, eventsto: seq<Item>, foreign: set<Item>,
                                              script: seq<Reaction>, k: nat)
    requires NoDup(events + eventsto) && forall e | e in events + eventsto :: e !in foreign
    ensures Drain(events, eventsto, foreign + Elements(events + eventsto), script, k).ok <==>
              forall n: nat | Reached(events, script, k, n) :: RaisesFree(events, eventsto, foreign, script, k, n)
    decreases if k < |script| then |script| - k else 0, |events|
  {
    var linked := foreign + Elements(events + eventsto);
    if events == [] {
      assert |events + RaisedHere(script, k, 0)| == 0;
      assert forall n: nat :: !Reached(events, script, k, n);
    } else {
      var r := At(script, k);
      var free := linked - {events[0]};
      FirstFree(events, eventsto, foreign, script, k);
      if Pushable(free, r.here + r.others) {
        var events2, eventsto2 := events[1..] + r.here, eventsto + r.others;
        AfterFirst(events, eventsto, foreign, r);
        DrainFaultsExactly(events2, eventsto2, foreign, script, k + 1);
        LaterOnes(events, eventsto, foreign, script, k, k + 1);
      }
    }
  }

  /** Which of some items are on a queue. */
  ghost function Linked(all: set<Item>): set<Item>
    reads all
  {
    set x | x in all && x.InQueue()
  }

  class Ctx {
    var locked: bool
    const events: Q.Queue<Ev>
    const eventsto: Q.Queue<Ev>

    constructor ()
      ensures Valid() && events.Items == [] && eventsto.Items == [] && !locked
      ensures fresh(events) && fresh(eventsto)
    {
      locked := false;
      events := new Q.Queue<Ev>();
      eventsto := new Q.Queue<Ev>();
    }

    ghost predicate Valid()
      reads this, events, events.Items, eventsto, eventsto.Items
    {
      && events != eventsto && events.Valid() && eventsto.Valid()
      && forall x | x in events.Items :: x !in eventsto.Items
    }

    /** The items there are, those of this context among them. */
    ghost predicate Within(all: set<Item>)
      reads events, eventsto
    {
      (forall x | x in events.Items :: x in all) && (forall x | x in eventsto.Items :: x in all)
    }

    method Enter()
      requires !locked
      modifies this`locked
      ensures locked
    {
      locked := true;
    }

    lemma ItemsAreLinked()
      requires Valid()
      ensures (forall x | x in events.Items :: x.InQueue()) && (forall x | x in eventsto.Items :: x.InQueue())
    {
    }

    /** False stands for the check of nn_queue_push, which sees every queue there is. */
    method Raise(item: Item, ghost all: set<Item>) returns (ok: bool)
      requires Valid() && Within(all) && item in all
      modifies events, events.Items, item
      ensures Valid() && Within(all) && (ok <==> item !in old(Linked(all)))
      ensures events.Items == (if ok then old(events.Items) + [item] else old(events.Items))
      ensures Linked(all) == old(Linked(all)) + {item}
    {
      ItemsAreLinked();
      hide Q.Queue.Valid;
      if item.InQueue() {
        return false;
      }
      events.Push(item);
      eventsto.Untouched();
      ItemsAreLinked();
      return true;
    }

    method RaiseTo(item: Item, ghost all: set<Item>) returns (ok: bool)
      requires Valid() && Within(all) && item in all
      modifies eventsto, eventsto.Items, item
      ensures Valid() && Within(all) && (ok <==> item !in old(Linked(all)))
      ensures eventsto.Items == (if ok then old(eventsto.Items) + [item] else old(eventsto.Items))
      ensures Linked(all) == old(Linked(all)) + {item}
    {
      ItemsAreLinked();
      hide Q.Queue.Valid;
      if item.InQueue() {
        return false;
      }
      eventsto.Push(item);
      events.Untouched();
      ItemsAreLinked();
      return true;
    }

    /** The oldest event comes off, and its link says so. */
    method PopEvent(ghost all: set<Item>) returns (e: Q.Item?<Ev>)
      requires Valid() && Within(all)
      modifies events, events.Items
      ensures Valid() && Within(all) && eventsto.Items == old(eventsto.Items)
      ensures old(events.Items) == [] ==> e == null && events.Items == [] && Linked(all) == old(Linked(all))
      ensures old(events.Items) != [] ==>
                && e != null && e in all && old(events.Items) == [e] + events.Items
                && e !in Linked(all) && old(Linked(all)) == Linked(all) + {e}
    {
      ItemsAreLinked();
      PoppedApart();
      hide Q.Queue.Valid;
      e := events.Pop();
      eventsto.Untouched();
      ItemsAreLinked();
    }

    lemma PoppedApart()
      requires Valid()
      ensures events.Items != [] ==> events.Items[0] !in events.Items[1..]
    {
    }

    method RaiseAll(s: seq<Item>, ghost all: set<Item>) returns (ok: bool)
      requires Valid() && Within(all) && forall e | e in s :: e in all
      modifies events, events.Items, all
      ensures Valid() && Within(all) && (ok <==> Pushable(old(Linked(all)), s))
      ensures eventsto.Items == old(eventsto.Items)
      ensures ok ==> events.Items == old(events.Items) + s && Linked(all) == old(Linked(all)) + Elements(s)
    {
      hide Linked, Pushable, Elements, Q.Queue.Valid;
      ghost var before := Linked(all);
      NothingPushed(before);
      for i := 0 to |s|
        invariant Valid() && Within(all) && Pushable(before, s[..i]) && Linked(all) == before + Elements(s[..i])
        invariant events.Items == old(events.Items) + s[..i] && eventsto.Items == old(eventsto.Items)
      {
        OnePush(before, s, i);
        ok := Raise(s[i], all);
        if !ok {
          return;
        }
        assert s[..i + 1] == s[..i] + [s[i]];
      }
      assert s[..|s|] == s;
      ok := true;
    }

    method RaiseAllTo(s: seq<Item>, ghost all: set<Item>) returns (ok: bool)
      requires Valid() && Within(all) && forall e | e in s :: e in all
      modifies eventsto, eventsto.Items, all
      ensures Valid() && Within(all) && (ok <==> Pushable(old(Linked(all)), s))
      ensures events.Items == old(events.Items)
      ensures ok ==> eventsto.Items == old(eventsto.Items) + s && Linked(all) == old(Linked(all)) + Elements(s)
    {
      hide Linked, Pushable, Elements, Q.Queue.Valid;
      ghost var before := Linked(all);
      NothingPushed(before);
      for i := 0 to |s|
        invariant Valid() && Within(all) && Pushable(before, s[..i]) && Linked(all) == before + Elements(s[..i])
        invariant eventsto.Items == old(eventsto.Items) + s[..i] && events.Items == old(events.Items)
      {
        OnePush(before, s, i);
        ok := RaiseTo(s[i], all);
        if !ok {
          return;
        }
        assert s[..i + 1] == s[..i] + [s[i]];
      }
      assert s[..|s|] == s;
      ok := true;
    }

    method React(r: Reaction, ghost all: set<Item>) returns (ok: bool)
      requires Valid() && Within(all) && forall e | e in r.here + r.others :: e in all
      modifies events, eventsto, all
      ensures Valid() && Within(all) && (ok <==> Pushable(old(Linked(all)), r.here + r.others))
      ensures ok ==> events.Items == old(events.Items) + r.here && eventsto.Items == old(eventsto.Items) + r.others
      ensures ok ==> Linked(all) == old(Linked(all)) + Elements(r.here + r.others)
    {
      hide Linked, Pushable, Elements, Q.Queue.Valid;
      BothPushed(Linked(all), r.here, r.others);
      ok := RaiseAll(r.here, all);
      if ok {
        ok := RaiseAllTo(r.others, all);
      }
    }

    /** The drain and the hand-over; `script` says how the handlers react. */
    method Leave(script: seq<Reaction>, ghost all: set<Item>)
      returns (ok: bool, processed: seq<Item>, batch: Q.Queue<Ev>)
      requires Valid() && locked && Within(all)
      requires forall r | r in script :: forall e | e in r.here + r.others :: e in all
      modifies this, events, eventsto, all
      ensures Valid() && Within(all) && batch.Valid() && fresh(batch)
      ensures ok <==> Drain(old(events.Items), old(eventsto.Items), old(Linked(all)), script, 0).ok
      ensures ok ==> !locked && events.Items == [] && eventsto.Items == []
      ensures ok ==> Drained(true, processed, batch.Items) ==
                     Drain(old(events.Items), old(eventsto.Items), old(Linked(all)), script, 0)
    {
      processed := [];
      batch := new Q.Queue<Ev>();
      hide Drain, Linked, Pushable, Elements, Q.Queue.Valid, After;
      ghost var whole := Drain(events.Items, eventsto.Items, Linked(all), script, 0);
      var e := PopEvent(all);
      while e != null
        invariant Valid() && locked && Within(all) && batch.Valid() && batch.Items == []
        invariant e != null ==> e in all && e !in Linked(all)
        invariant After([], whole) ==
                  After(processed,
                        if e == null then Drain([], eventsto.Items, Linked(all), script, |processed|)
                        else Drain([e] + events.Items, eventsto.Items, Linked(all) + {e}, script, |processed|))
        invariant e == null ==> events.Items == []
        decreases if |processed| < |script| then |script| - |processed| else 0,
                  |events.Items| + if e == null then 0 else 1
      {
        OneEvent([e] + events.Items, eventsto.Items, Linked(all) + {e}, script, processed);
        ok := React(At(script, |processed|), all);
        if !ok {
          AfterAll(whole, processed, []);
          return;
        }
        processed := processed + [e];
        e := PopEvent(all);
      }
      NothingToDrain(eventsto.Items, Linked(all), script, |processed|);
      AfterAll(whole, processed, eventsto.Items);
      batch.TakeFrom(eventsto);
      locked := false;
      ok := true;
    }
  }
}
