/** Leaving a context while earlier events of it are under way in the same direction:
    then, and only then, an event can overtake an earlier one. */
module CtxOvertaking {
  import opened Outcome
  import opened Seqs
  import opened Ctxs
  import opened CtxProofs
  import opened CtxOrder

  // ---------- putting runs together ----------

  /** Context c, its direction d, and which way events go. */
  datatype Where = Where(to: Target, way: Way, c: nat, d: nat)

  /** A legal run that leaves c in order in direction d. */
  ghost predicate Fine(at: Where, w: World, ops: seq<Op>)
    requires Inv(w)
  {
    Legal(at.to, w, ops) && OrderlyRun(at.to, at.way, w, ops, at.c, at.d)
  }

  lemma Prepend(at: Where, w: World, op: Op, ops: seq<Op>)
    requires Inv(w) && Enabled(at.to, w, op) && Apply(at.to, w, op).Ok? && Orderly(at.way, w, op, at.c, at.d)
    requires Inv(Apply(at.to, w, op).value) && Fine(at, Apply(at.to, w, op).value, ops)
    ensures Fine(at, w, [op] + ops) && Run(at.to, w, [op] + ops) == Run(at.to, Apply(at.to, w, op).value, ops)
  {
    hide Inv, Enabled, Apply, Orderly;
    assert ([op] + ops)[1..] == ops;
  }

  lemma Ends(at: Where, w: World)
    requires Inv(w)
    ensures Fine(at, w, []) && Run(at.to, w, []) == w
  {
    hide Inv;
  }

  lemma {:induction false} Chain(at: Where, w: World, first: seq<Op>, rest: seq<Op>)
    requires Inv(w) && Fine(at, w, first) && Fine(at, Run(at.to, w, first), rest)
    ensures Fine(at, w, first + rest) && Run(at.to, w, first + rest) == Run(at.to, Run(at.to, w, first), rest)
    decreases |first|
  {
    hide Inv, Enabled, Apply, Orderly;
    if first == [] {
      assert first + rest == rest;
    } else {
      StepKeeps(at.to, w, first[0]);
      assert (first + rest)[1..] == first[1..] + rest;
      Chain(at, Apply(at.to, w, first[0]).value, first[1..], rest);
    }
  }

  /** A context with nothing to take along is left in order. */
  lemma LeaveNothing(at: Where, w: World, op: Op)
    requires at.c < |w.cxs| && w.cxs[at.c].eventsto == []
    ensures Orderly(at.way, w, op, at.c, at.d)
  {
  }

  predicate Emptied(at: Where, w: World)
  {
    at.c < |w.cxs| && w.cxs[at.c].eventsto == []
  }

  /** A context's records of what it sent and what of it was delivered. */
  predicate SameLogs(x: Cx, y: Cx)
  {
    x.sent == y.sent && x.delivered == y.delivered
  }

  /** Whoever is in a context can drain and leave it; meanwhile the other contexts
      and the other threads' deliveries stay as they are. */
  lemma {:induction false} Vacate(at: Where, w: World, e: nat) returns (ops: seq<Op>)
    requires Inv(w) && e < |w.cxs| && Emptied(at, w)
    ensures Fine(at, w, ops)
    ensures var v := Run(at.to, w, ops);
            && |v.cxs| == |w.cxs| && |v.stacks| == |w.stacks| && Free(v, e) && SameLogs(v.cxs[e], w.cxs[e])
            && (forall c | 0 <= c < |w.cxs| && c != e :: v.cxs[c] == w.cxs[c])
            && (forall t | 0 <= t < |w.stacks| && w.cxs[e].owner != [t] :: v.stacks[t] == w.stacks[t])
            && Emptied(at, v)
    decreases |w.cxs[e].events|
  {
    hide OneQueue, Batches, OneContext, Numbered, Legal, OrderlyRun, Run, Orderly;
    if w.cxs[e].owner == [] {
      Ends(at, w);
      ops := [];
    } else if w.cxs[e].events == [] {
      StepKeeps(at.to, w, Leave(e));
      Ends(at, Apply(at.to, w, Leave(e)).value);
      LeaveNothing(at, w, Leave(e));
      Prepend(at, w, Leave(e), []);
      ops := [Leave(e)] + [];
    } else {
      StepKeeps(at.to, w, Process(e));
      var rest := Vacate(at, Apply(at.to, w, Process(e)).value, e);
      LeaveNothing(at, w, Process(e));
      Prepend(at, w, Process(e), rest);
      ops := [Process(e)] + rest;
    }
  }

  /** A thread can make its next delivery: it is then in the event's context, which
      has nothing to do. */
  ghost predicate Delivered(to: Target, w: World, v: World, t: nat)
    requires t < |w.stacks| && Delivering(w.stacks[t], |w.cxs|)
  {
    var b := Top(w.stacks[t]);
    var d := to(b.rest[0].e);
    && Inv(v) && |v.cxs| == |w.cxs| && |v.stacks| == |w.stacks| && v.stacks[t] == Advance(w.stacks[t])
    && v.cxs[b.from].sent == w.cxs[b.from].sent
    && v.cxs[b.from].delivered == w.cxs[b.from].delivered + [b.rest[0]]
    && d < |v.cxs| && v.cxs[d].owner == [t] && v.cxs[d].events == [] && v.cxs[d].eventsto == []
  }

  lemma DeliverNext(at: Where, w: World, t: nat) returns (ops: seq<Op>)
    requires Inv(w) && Enabled(at.to, w, Take(t)) && at.to(Top(w.stacks[t]).rest[0].e) < |w.cxs| && Emptied(at, w)
    ensures Fine(at, w, ops) && Delivered(at.to, w, Run(at.to, w, ops), t) && Emptied(at, Run(at.to, w, ops))
  {
    hide OneQueue, Batches, OneContext, Numbered, Legal, OrderlyRun, Run, Orderly;
    StepKeeps(at.to, w, Take(t));
    var w1 := Apply(at.to, w, Take(t)).value;
    var e := at.to(Top(w.stacks[t]).rest[0].e);
    var first := Vacate(at, w1, e);
    var w2 := Run(at.to, w1, first);
    IdleStays(w1, w2, t, e);
    assert Enabled(at.to, w2, Arrive(t));
    StepKeeps(at.to, w2, Arrive(t));
    var w3 := Apply(at.to, w2, Arrive(t)).value;
    Ends(at, w3);
    LeaveNothing(at, w2, Arrive(t));
    Prepend(at, w2, Arrive(t), []);
    Chain(at, w1, first, [Arrive(t)] + []);
    LeaveNothing(at, w, Take(t));
    Prepend(at, w, Take(t), first + ([Arrive(t)] + []));
    ops := [Take(t)] + (first + ([Arrive(t)] + []));
    assert Advance(w2.stacks[t]) == Advance(w.stacks[t]) by { FlagOnly(w.stacks[t]); }
  }

  lemma FlagOnly(stack: seq<Batch>)
    requires stack != [] && Top(stack).rest != []
    ensures Advance(stack[|stack| - 1 := Top(stack).(taken := true)]) == Advance(stack)
  {
  }

  lemma IdleStays(w: World, v: World, t: nat, d: nat)
    requires Idle(w, t) && d < |w.cxs| == |v.cxs| && |v.stacks| == |w.stacks| && Free(v, d)
    requires forall c | 0 <= c < |w.cxs| && c != d :: v.cxs[c] == w.cxs[c]
    ensures Idle(v, t) && w.cxs[d].owner != [t]
  {
  }

  // ---------- numbers ----------

  ghost predicate Rising(s: seq<Sent>)
  {
    forall i, j | 0 <= i < j < |s| :: s[i].n < s[j].n
  }

  lemma {:induction false} OfIn(way: Way, s: seq<Sent>, d: nat)
    ensures forall x | x in Of(way, s, d) :: x in s
  {
    if s != [] {
      OfIn(way, s[1..], d);
    }
  }

  lemma {:induction false} OfRising(way: Way, s: seq<Sent>, d: nat)
    requires Rising(s)
    ensures Rising(Of(way, s, d))
  {
    if s != [] {
      RisingTail(s);
      OfRising(way, s[1..], d);
      OfIn(way, s[1..], d);
      hide Rising;
      RisingFront(s[0], Of(way, s[1..], d));
    } else {
      OfNothing(way, d);
    }
  }

  lemma RisingTail(s: seq<Sent>)
    requires Rising(s) && s != []
    ensures Rising(s[1..]) && forall x | x in s[1..] :: s[0].n < x.n
  {
  }

  lemma RisingPair(one: Sent, s: seq<Sent>, i: nat, j: nat)
    requires Rising(s) && (forall x | x in s :: one.n < x.n) && i < j <= |s|
    ensures ([one] + s)[i].n < ([one] + s)[j].n
  {
    assert s[j - 1] in s;
    assert ([one] + s)[j] == s[j - 1];
    if i > 0 {
      assert ([one] + s)[i] == s[i - 1];
    }
  }

  lemma RisingFront(one: Sent, s: seq<Sent>)
    requires Rising(s) && forall x | x in s :: one.n < x.n
    ensures Rising([one] + s) && [] + s == s
  {
    forall i: nat, j: nat | i < j <= |s| ensures ([one] + s)[i].n < ([one] + s)[j].n {
      RisingPair(one, s, i, j);
    }
  }

  // ---------- overtaking ----------

  /** A thread has yet to deliver, in direction d, an event of context c that is not the
      next one due there. */
  ghost predicate Overtaking(way: Way, w: World, t: nat, c: nat, d: nat)
  {
    && c < |w.cxs| && Idle(w, t) && Delivering(w.stacks[t], |w.cxs|)
    && var b := Top(w.stacks[t]);
    && b.from == c && !b.taken && Of(way, b.rest, d) != []
    && var sent, delivered := Of(way, w.cxs[c].sent, d), Of(way, w.cxs[c].delivered, d);
    && |delivered| < |sent| && sent[|delivered|] != Of(way, b.rest, d)[0]
  }

  ghost predicate Disordered(way: Way, w: World, c: nat, d: nat)
  {
    c < |w.cxs| && !(Of(way, w.cxs[c].delivered, d) <= Of(way, w.cxs[c].sent, d))
  }

  lemma OvertakingIsFatal(at: Where, w: World, t: nat) returns (ops: seq<Op>)
    requires Inv(w) && Overtaking(at.way, w, t, at.c, at.d) && Emptied(at, w) && forall e :: at.to(e) < |w.cxs|
    ensures Fine(at, w, ops) && Disordered(at.way, Run(at.to, w, ops), at.c, at.d)
    decreases |Top(w.stacks[t]).rest|
  {
    hide Inv, Legal, OrderlyRun, Run, Of, Orderly;
    var b := Top(w.stacks[t]);
    var first := DeliverNext(at, w, t);
    var v := Run(at.to, w, first);
    DeliveredParts(at.way, b.rest, w.cxs[at.c].delivered, at.d);
    if at.way(b.rest[0].e) == at.d {
      OutOfOrder(at.way, w, v, at.c, at.d, b.rest[0]);
      ops := first;
    } else {
      assert b.rest[1..] != [] by { OfNothing(at.way, at.d); }
      var e := at.to(b.rest[0].e);
      Leaves(at.to, v, t, e);
      StepKeeps(at.to, v, Leave(e));
      var u := Apply(at.to, v, Leave(e)).value;
      var rest := OvertakingIsFatal(at, u, t);
      LeaveNothing(at, v, Leave(e));
      Prepend(at, v, Leave(e), rest);
      Chain(at, w, first, [Leave(e)] + rest);
      ops := first + ([Leave(e)] + rest);
    }
  }

  lemma OutOfOrder(way: Way, w: World, v: World, c: nat, d: nat, one: Sent)
    requires c < |w.cxs| == |v.cxs| && v.cxs[c].sent == w.cxs[c].sent
    requires Of(way, v.cxs[c].delivered, d) == Of(way, w.cxs[c].delivered, d) + [one]
    requires |Of(way, w.cxs[c].delivered, d)| < |Of(way, w.cxs[c].sent, d)|
    requires Of(way, w.cxs[c].sent, d)[|Of(way, w.cxs[c].delivered, d)|] != one
    ensures Disordered(way, v, c, d)
  {
  }

  /** A thread leaves a context in which it has nothing to do. */
  lemma Leaves(to: Target, v: World, t: nat, e: nat)
    requires Inv(v) && e < |v.cxs| && t < |v.stacks| && v.cxs[e].owner == [t]
    requires v.cxs[e].events == [] && v.cxs[e].eventsto == []
    ensures Enabled(to, v, Leave(e)) && Apply(to, v, Leave(e)).Ok?
    ensures var u := Apply(to, v, Leave(e)).value;
            && Idle(u, t) && |u.cxs| == |v.cxs| && u.stacks == v.stacks
            && forall c | 0 <= c < |v.cxs| :: SameLogs(u.cxs[c], v.cxs[c]) && u.cxs[c].eventsto == v.cxs[c].eventsto
  {
  }

  /** Two parts of what rises have nothing in common. */
  lemma NextIsNot(sent: seq<Sent>, delivered: seq<Sent>, rest: seq<Sent>, more: seq<Sent>)
    requires Rising(sent) && sent == delivered + rest + more && rest != [] && more != []
    ensures |delivered| < |sent| && sent[|delivered|] != more[0]
  {
    assert sent[|delivered|] == rest[0] && sent[|delivered| + |rest|] == more[0];
  }

  /** Once a context is left with events for a direction in which an earlier batch of it
      still carries some, an event can overtake an earlier one, even if the context
      is left in order from then on. */
  lemma DisorderOvertakes(at: Where, w: World) returns (ops: seq<Op>)
    requires Inv(w) && at.c < |w.cxs| && InOrderAt(at.way, w, at.c, at.d) && Enabled(at.to, w, Leave(at.c))
    requires forall e :: at.to(e) < |w.cxs|
    requires !Orderly(at.way, w, Leave(at.c), at.c, at.d)
    ensures Apply(at.to, w, Leave(at.c)).Ok? && Inv(Apply(at.to, w, Leave(at.c)).value)
    ensures var v := Apply(at.to, w, Leave(at.c)).value;
            Fine(at, v, ops) && Disordered(at.way, Run(at.to, v, ops), at.c, at.d)
  {
    hide Fine, Run, OneQueue, Batches, OneContext, Of;
    var x := w.cxs[at.c];
    var t, k :| Carries(at.way, w, at.c, at.d, t, k);
    assert x.eventsto != [] by { OfNothing(at.way, at.d); }
    OfRising(at.way, x.sent, at.d);
    NextIsNot(Of(at.way, x.sent, at.d), Of(at.way, x.delivered, at.d), Of(at.way, w.stacks[t][k].rest, at.d),
              Of(at.way, x.eventsto, at.d));
    StepKeeps(at.to, w, Leave(at.c));
    LeftIdle(at.to, w, at.c);
    var v := Apply(at.to, w, Leave(at.c)).value;
    assert Overtaking(at.way, v, x.owner[0], at.c, at.d);
    ops := OvertakingIsFatal(at, v, x.owner[0]);
  }

  lemma LeftIdle(to: Target, w: World, c: nat)
    requires Inv(w) && Enabled(to, w, Leave(c)) && w.cxs[c].eventsto != []
    ensures var v, t := Apply(to, w, Leave(c)).value, w.cxs[c].owner[0];
            && Idle(v, t) && Delivering(v.stacks[t], |v.cxs|) && |v.cxs| == |w.cxs|
            && Top(v.stacks[t]) == Batch(c, w.cxs[c].eventsto, false) && SameLogs(v.cxs[c], w.cxs[c])
  {
  }

  /** No continuation that leaves c in order in d delivers out of order there. */
  ghost predicate StaysInOrder(at: Where, w: World)
    requires Inv(w)
  {
    forall ops | Fine(at, w, ops) :: !Disordered(at.way, Run(at.to, w, ops), at.c, at.d)
  }

  lemma OrderStays(at: Where, w: World)
    requires Inv(w) && at.c < |w.cxs| && InOrderAt(at.way, w, at.c, at.d)
    ensures StaysInOrder(at, w)
  {
    hide Inv, Legal, Run, OrderlyRun, InOrderAt;
    forall ops | Fine(at, w, ops) ensures !Disordered(at.way, Run(at.to, w, ops), at.c, at.d) {
      RunKeepsOrder(at.to, at.way, w, ops, at.c, at.d);
      PrefixDelivered(at.way, Run(at.to, w, ops), at.c, at.d);
    }
  }

  /** Whether a context is left in order is exactly what counts: then, and only then, the
      order in that direction lasts as long as the context goes on being left in order. */
  lemma OrderlyIsExact(at: Where, w: World)
    requires Inv(w) && at.c < |w.cxs| && InOrderAt(at.way, w, at.c, at.d) && Enabled(at.to, w, Leave(at.c))
    requires forall e :: at.to(e) < |w.cxs|
    ensures Apply(at.to, w, Leave(at.c)).Ok? && Inv(Apply(at.to, w, Leave(at.c)).value)
    ensures Orderly(at.way, w, Leave(at.c), at.c, at.d) <==> StaysInOrder(at, Apply(at.to, w, Leave(at.c)).value)
  {
    hide Legal, Run, Inv, Apply, InOrderAt, Fine, Orderly;
    assert Apply(at.to, w, Leave(at.c)).Ok? by { LeaveIsOk(at.to, w, at.c); }
    StepKeeps(at.to, w, Leave(at.c));
    var v := Apply(at.to, w, Leave(at.c)).value;
    if Orderly(at.way, w, Leave(at.c), at.c, at.d) {
      StepKeepsOrder(at.to, at.way, w, Leave(at.c), at.c, at.d);
      OrderStays(at, v);
    } else {
      var ops := DisorderOvertakes(at, w);
      assert Fine(at, v, ops);
    }
  }

  lemma LeaveIsOk(to: Target, w: World, c: nat)
    requires Enabled(to, w, Leave(c))
    ensures Apply(to, w, Leave(c)).Ok?
  {
  }

  /** ... in particular wherever a run from the start leads that has left it in order. */
  lemma OrderlyFromStart(at: Where, contexts: nat, threads: nat, before: seq<Op>)
    requires Inv(Start(contexts, threads)) && at.c < contexts && Fine(at, Start(contexts, threads), before)
    ensures var w := Run(at.to, Start(contexts, threads), before);
            && at.c < |w.cxs|
            && (Enabled(at.to, w, Leave(at.c)) && (forall e :: at.to(e) < |w.cxs|) ==>
                  && Apply(at.to, w, Leave(at.c)).Ok? && Inv(Apply(at.to, w, Leave(at.c)).value)
                  && (Orderly(at.way, w, Leave(at.c), at.c, at.d) <==>
                      StaysInOrder(at, Apply(at.to, w, Leave(at.c)).value)))
  {
    hide Inv, Legal, Run, OrderlyRun, InOrderAt, Apply, Enabled, Orderly, StaysInOrder;
    var s := Start(contexts, threads);
    StartInOrder(at.way, contexts, threads, at.c, at.d);
    RunKeepsOrder(at.to, at.way, s, before, at.c, at.d);
    var w := Run(at.to, s, before);
    if Enabled(at.to, w, Leave(at.c)) && forall e :: at.to(e) < |w.cxs| {
      OrderlyIsExact(at, w);
    }
  }
}
