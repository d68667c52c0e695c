/** When the events sent from a context in one direction arrive in the order in which
    they were sent. */
module CtxOrder {
  import opened Outcome
  import opened Seqs
  import opened Ctxs
  import opened CtxProofs

  /** The direction an event goes: for a session, the session it is for. */
  type Way = Ev -> nat

  /** The part that goes in direction d. */
  function Of(way: Way, s: seq<Sent>, d: nat): seq<Sent>
  {
    if s == [] then [] else (if way(s[0].e) == d then [s[0]] else []) + Of(way, s[1..], d)
  }

  lemma {:induction false} OfConcat(way: Way, s: seq<Sent>, t: seq<Sent>, d: nat)
    ensures Of(way, s + t, d) == Of(way, s, d) + Of(way, t, d)
  {
    if s == [] {
      assert s + t == t;
    } else {
      assert (s + t)[1..] == s[1..] + t && (s + t)[0] == s[0];
      OfConcat(way, s[1..], t, d);
      assert Of(way, s + t, d) == (if way(s[0].e) == d then [s[0]] else []) + Of(way, s[1..] + t, d);
    }
  }

  lemma OfOne(way: Way, one: Sent, d: nat)
    ensures Of(way, [one], d) == if way(one.e) == d then [one] else []
  {
  }

  /** The batch at this place comes from context c and has something for direction d. */
  predicate Carries(way: Way, w: World, c: int, d: nat, t: int, k: int)
  {
    && 0 <= t < |w.stacks| && 0 <= k < |w.stacks[t]|
    && w.stacks[t][k].from == c && Of(way, w.stacks[t][k].rest, d) != []
  }

  ghost predicate Quiet(way: Way, w: World, c: int, d: nat)
  {
    forall t, k :: !Carries(way, w, c, d, t, k)
  }

  /** At most one batch of a context carries events in a direction, and they lie
      between what was delivered there and what is still to be taken along. */
  ghost predicate InOrderAt(way: Way, w: World, c: nat, d: nat)
    requires c < |w.cxs|
  {
    var x := w.cxs[c];
    && (forall t, k, t2, k2 | Carries(way, w, c, d, t, k) && Carries(way, w, c, d, t2, k2) :: t == t2 && k == k2)
    && (forall t, k | Carries(way, w, c, d, t, k) ::
          Of(way, x.sent, d) == Of(way, x.delivered, d) + Of(way, w.stacks[t][k].rest, d) + Of(way, x.eventsto, d))
    && (Quiet(way, w, c, d) ==> Of(way, x.sent, d) == Of(way, x.delivered, d) + Of(way, x.eventsto, d))
  }

  /** A context is left with events for a direction only while no earlier batch of it
      carries any there. */
  ghost predicate Orderly(way: Way, w: World, op: Op, c: nat, d: nat)
  {
    op == Leave(c) && c < |w.cxs| && Of(way, w.cxs[c].eventsto, d) != [] ==> Quiet(way, w, c, d)
  }

  // ---------- every step ----------

  /** A direction whose batches and deliveries a step leaves alone. */
  lemma Untouched(way: Way, w: World, v: World, c: nat, d: nat, more: seq<Sent>)
    requires c < |w.cxs| == |v.cxs| && InOrderAt(way, w, c, d)
    requires forall t, k :: Carries(way, v, c, d, t, k) <==> Carries(way, w, c, d, t, k)
    requires forall t, k | Carries(way, w, c, d, t, k) && Carries(way, v, c, d, t, k) ::
               Of(way, v.stacks[t][k].rest, d) == Of(way, w.stacks[t][k].rest, d)
    requires Of(way, v.cxs[c].delivered, d) == Of(way, w.cxs[c].delivered, d)
    requires v.cxs[c].sent == w.cxs[c].sent + more && v.cxs[c].eventsto == w.cxs[c].eventsto + more
    ensures InOrderAt(way, v, c, d)
  {
    hide Of, Carries;
    OfConcat(way, w.cxs[c].sent, more, d);
    OfConcat(way, w.cxs[c].eventsto, more, d);
    assert Quiet(way, v, c, d) ==> Quiet(way, w, c, d);
  }

  lemma BatchTaken(to: Target, way: Way, w: World, c: nat, d: nat)
    requires Enabled(to, w, Leave(c)) && w.cxs[c].eventsto != [] && InOrderAt(way, w, c, d)
    requires Of(way, w.cxs[c].eventsto, d) != [] && Quiet(way, w, c, d)
    ensures InOrderAt(way, Apply(to, w, Leave(c)).value, c, d)
  {
    var v := Apply(to, w, Leave(c)).value;
    var t := w.cxs[c].owner[0];
    assert forall i, k | Carries(way, v, c, d, i, k) :: !Carries(way, w, c, d, i, k);
    assert forall i, k :: Carries(way, v, c, d, i, k) ==> i == t && k == |w.stacks[t]|;
    assert Carries(way, v, c, d, t, |w.stacks[t]|);
  }

  /** A batch with nothing for direction d does not matter there. */
  lemma BatchElsewhere(to: Target, way: Way, w: World, c: nat, e: nat, d: nat)
    requires Enabled(to, w, Leave(c)) && e < |w.cxs| && InOrderAt(way, w, e, d)
    requires c == e ==> Of(way, w.cxs[c].eventsto, d) == []
    ensures InOrderAt(way, Apply(to, w, Leave(c)).value, e, d)
  {
    var v := Apply(to, w, Leave(c)).value;
    assert forall t, k :: Carries(way, v, e, d, t, k) <==> Carries(way, w, e, d, t, k);
    assert Quiet(way, v, e, d) ==> Quiet(way, w, e, d);
  }

  lemma LeaveKeepsOrder(to: Target, way: Way, w: World, c: nat, e: nat, d: nat)
    requires e < |w.cxs| && InOrderAt(way, w, e, d) && Enabled(to, w, Leave(c)) && Orderly(way, w, Leave(c), e, d)
    ensures InOrderAt(way, Apply(to, w, Leave(c)).value, e, d)
  {
    hide InOrderAt;
    if e == c && Of(way, w.cxs[c].eventsto, d) != [] {
      BatchTaken(to, way, w, c, d);
    } else {
      BatchElsewhere(to, way, w, c, e, d);
    }
  }

  lemma TakeKeepsOrder(to: Target, way: Way, w: World, t: nat, e: nat, d: nat)
    requires e < |w.cxs| && InOrderAt(way, w, e, d) && Enabled(to, w, Take(t))
    ensures InOrderAt(way, Apply(to, w, Take(t)).value, e, d)
  {
    hide InOrderAt;
    var v := Apply(to, w, Take(t)).value;
    assert forall i, k | 0 <= i < |w.stacks| && 0 <= k < |w.stacks[i]| ::
        v.stacks[i][k].rest == w.stacks[i][k].rest && v.stacks[i][k].from == w.stacks[i][k].from;
    Untouched(way, w, v, e, d, []);
  }

  /** The part of a delivered event in the batch and in the record. */
  lemma DeliveredParts(way: Way, rest: seq<Sent>, delivered: seq<Sent>, d: nat)
    requires rest != []
    ensures Of(way, rest, d) == (if way(rest[0].e) == d then [rest[0]] else []) + Of(way, rest[1..], d)
    ensures Of(way, delivered + [rest[0]], d) == Of(way, delivered, d) + if way(rest[0].e) == d then [rest[0]] else []
  {
    OfConcat(way, delivered, [rest[0]], d);
    OfOne(way, rest[0], d);
  }

  /** What a place carries after an arrival. */
  lemma ArriveAt(to: Target, way: Way, w: World, t: nat, c: nat, d: nat, i: int, k: int)
    requires Enabled(to, w, Arrive(t))
    ensures var v, n, b := Apply(to, w, Arrive(t)).value, |w.stacks[t]| - 1, Top(w.stacks[t]);
            && (Carries(way, v, c, d, i, k) <==>
                  if i == t && k == n then b.from == c && Of(way, b.rest[1..], d) != []
                  else Carries(way, w, c, d, i, k))
            && (Carries(way, v, c, d, i, k) ==>
                  v.stacks[i][k].rest == if i == t && k == n then b.rest[1..] else w.stacks[i][k].rest)
  {
    OfNothing(way, d);
    hide Of;
  }

  /** Which batches still carry something after an arrival. */
  lemma ArriveCarries(to: Target, way: Way, w: World, t: nat, d: nat)
    requires Enabled(to, w, Arrive(t)) && Of(way, Top(w.stacks[t]).rest, d) != []
    ensures var v, n, b := Apply(to, w, Arrive(t)).value, |w.stacks[t]| - 1, Top(w.stacks[t]);
            && (forall i, k :: Carries(way, v, b.from, d, i, k) ==> Carries(way, w, b.from, d, i, k))
            && (Carries(way, v, b.from, d, t, n) <==> Of(way, b.rest[1..], d) != [])
            && (Carries(way, v, b.from, d, t, n) ==> v.stacks[t][n].rest == b.rest[1..])
  {
    var v, n, b := Apply(to, w, Arrive(t)).value, |w.stacks[t]| - 1, Top(w.stacks[t]);
    assert Carries(way, w, b.from, d, t, n);
    ArriveAt(to, way, w, t, b.from, d, t, n);
    hide Apply, Enabled, Carries, Of;
    forall i, k | Carries(way, v, b.from, d, i, k) ensures Carries(way, w, b.from, d, i, k) {
      ArriveAt(to, way, w, t, b.from, d, i, k);
    }
  }

  lemma ArriveLogs(to: Target, w: World, t: nat)
    requires Enabled(to, w, Arrive(t))
    ensures var v, b := Apply(to, w, Arrive(t)).value, Top(w.stacks[t]);
            && |v.cxs| == |w.cxs| && v.cxs[b.from].sent == w.cxs[b.from].sent
            && v.cxs[b.from].eventsto == w.cxs[b.from].eventsto
            && v.cxs[b.from].delivered == w.cxs[b.from].delivered + [b.rest[0]]
  {
  }

  /** What is delivered moves from the front of the batch to the end of the record. */
  lemma FrontMoves(way: Way, w: World, t: nat)
    requires t < |w.stacks| && w.stacks[t] != [] && Top(w.stacks[t]).rest != [] && Top(w.stacks[t]).from < |w.cxs|
    requires var b := Top(w.stacks[t]); InOrderAt(way, w, b.from, way(b.rest[0].e))
    ensures var b := Top(w.stacks[t]);
            var x, d := w.cxs[b.from], way(b.rest[0].e);
            && Carries(way, w, b.from, d, t, |w.stacks[t]| - 1)
            && Of(way, x.sent, d)
                 == Of(way, x.delivered + [b.rest[0]], d) + Of(way, b.rest[1..], d) + Of(way, x.eventsto, d)
            && forall i, k | Carries(way, w, b.from, d, i, k) :: i == t && k == |w.stacks[t]| - 1
  {
    var b := Top(w.stacks[t]);
    DeliveredParts(way, b.rest, w.cxs[b.from].delivered, way(b.rest[0].e));
    hide Of;
    assert Carries(way, w, b.from, way(b.rest[0].e), t, |w.stacks[t]| - 1);
  }

  lemma FrontDelivered(to: Target, way: Way, w: World, t: nat)
    requires Enabled(to, w, Arrive(t))
    requires var b := Top(w.stacks[t]); InOrderAt(way, w, b.from, way(b.rest[0].e))
    ensures var b := Top(w.stacks[t]); InOrderAt(way, Apply(to, w, Arrive(t)).value, b.from, way(b.rest[0].e))
  {
    FrontMoves(way, w, t);
    var v := Apply(to, w, Arrive(t)).value;
    var n, b := |w.stacks[t]| - 1, Top(w.stacks[t]);
    var d := way(b.rest[0].e);
    hide Of, Apply, InOrderAt;
    ArriveCarries(to, way, w, t, d);
    ArriveLogs(to, w, t);
    hide Enabled, Carries;
    OneBatch(way, v, b.from, d, t, n);
  }

  /** A context with one place, at most, that carries something. */
  lemma OneBatch(way: Way, v: World, c: nat, d: nat, t: nat, n: nat)
    requires c < |v.cxs| && forall i, k | Carries(way, v, c, d, i, k) :: i == t && k == n
    requires Carries(way, v, c, d, t, n) ==>
               Of(way, v.cxs[c].sent, d)
                 == Of(way, v.cxs[c].delivered, d) + Of(way, v.stacks[t][n].rest, d) + Of(way, v.cxs[c].eventsto, d)
    requires !Carries(way, v, c, d, t, n) ==>
               Of(way, v.cxs[c].sent, d) == Of(way, v.cxs[c].delivered, d) + Of(way, v.cxs[c].eventsto, d)
    ensures InOrderAt(way, v, c, d)
  {
    hide Of;
    if !Carries(way, v, c, d, t, n) {
      assert Quiet(way, v, c, d);
    }
  }

  lemma OfNothing(way: Way, d: nat)
    ensures Of(way, [], d) == []
  {
  }

  lemma ElsewhereDelivered(to: Target, way: Way, w: World, t: nat, e: nat, d: nat)
    requires e < |w.cxs| && InOrderAt(way, w, e, d) && Enabled(to, w, Arrive(t))
    requires var b := Top(w.stacks[t]); e != b.from || way(b.rest[0].e) != d
    ensures InOrderAt(way, Apply(to, w, Arrive(t)).value, e, d)
  {
    var v := Apply(to, w, Arrive(t)).value;
    ElsewhereCarries(to, way, w, t, e, d);
    hide InOrderAt, Of, Carries;
    assert v.cxs[e].sent == w.cxs[e].sent + [] && v.cxs[e].eventsto == w.cxs[e].eventsto + [];
    hide Apply, Enabled;
    Untouched(way, w, v, e, d, []);
  }

  lemma ElsewhereCarries(to: Target, way: Way, w: World, t: nat, e: nat, d: nat)
    requires e < |w.cxs| && Enabled(to, w, Arrive(t))
    requires var b := Top(w.stacks[t]); e != b.from || way(b.rest[0].e) != d
    ensures var v := Apply(to, w, Arrive(t)).value;
            && |v.cxs| == |w.cxs| && Of(way, v.cxs[e].delivered, d) == Of(way, w.cxs[e].delivered, d)
            && (forall i, k :: Carries(way, v, e, d, i, k) <==> Carries(way, w, e, d, i, k))
            && (forall i, k | Carries(way, w, e, d, i, k) && Carries(way, v, e, d, i, k) ::
                  Of(way, v.stacks[i][k].rest, d) == Of(way, w.stacks[i][k].rest, d))
  {
    var v, n, b := Apply(to, w, Arrive(t)).value, |w.stacks[t]| - 1, Top(w.stacks[t]);
    DeliveredParts(way, b.rest, w.cxs[b.from].delivered, d);
    OfNothing(way, d);
    hide Of;
    assert Carries(way, w, e, d, t, n) <==> b.from == e && Of(way, b.rest, d) != [];
    assert b.from == e ==> Of(way, b.rest, d) == Of(way, b.rest[1..], d);
    ElsewhereSent(to, way, w, t, e, d);
    hide Apply, Enabled, Carries;
    forall i, k ensures Carries(way, v, e, d, i, k) <==> Carries(way, w, e, d, i, k) {
      ArriveAt(to, way, w, t, e, d, i, k);
    }
    forall i, k | Carries(way, w, e, d, i, k) && Carries(way, v, e, d, i, k)
      ensures Of(way, v.stacks[i][k].rest, d) == Of(way, w.stacks[i][k].rest, d)
    {
      ArriveAt(to, way, w, t, e, d, i, k);
    }
  }

  lemma ElsewhereSent(to: Target, way: Way, w: World, t: nat, e: nat, d: nat)
    requires e < |w.cxs| && Enabled(to, w, Arrive(t))
    requires var b := Top(w.stacks[t]); e != b.from || way(b.rest[0].e) != d
    ensures var v := Apply(to, w, Arrive(t)).value;
            |v.cxs| == |w.cxs| && Of(way, v.cxs[e].delivered, d) == Of(way, w.cxs[e].delivered, d)
  {
    var b := Top(w.stacks[t]);
    DeliveredParts(way, b.rest, w.cxs[b.from].delivered, d);
    hide Of;
  }

  /** A step that leaves batches, deliveries and directions alone, but may send more. */
  lemma SendKeepsOrder(to: Target, way: Way, w: World, op: Op, c: nat, d: nat)
    requires c < |w.cxs| && InOrderAt(way, w, c, d) && Enabled(to, w, op) && Apply(to, w, op).Ok?
    requires !op.Leave? && !op.Take? && !op.Arrive?
    ensures InOrderAt(way, Apply(to, w, op).value, c, d)
  {
    hide InOrderAt, Quiet, Of;
    var v := Apply(to, w, op).value;
    var more := if op.RaiseTo? && op.c == c then [Sent(op.e, |w.cxs[c].sent|)] else [];
    assert v.cxs[c].sent == w.cxs[c].sent + more && v.cxs[c].eventsto == w.cxs[c].eventsto + more;
    Untouched(way, w, v, c, d, more);
  }

  lemma StepKeepsOrder(to: Target, way: Way, w: World, op: Op, c: nat, d: nat)
    requires c < |w.cxs| && InOrderAt(way, w, c, d)
    requires Enabled(to, w, op) && Orderly(way, w, op, c, d) && Apply(to, w, op).Ok?
    ensures c < |Apply(to, w, op).value.cxs| && InOrderAt(way, Apply(to, w, op).value, c, d)
  {
    hide InOrderAt, Quiet, Of, Orderly;
    match op {
      case Leave(e) => LeaveKeepsOrder(to, way, w, e, c, d);
      case Take(t) => TakeKeepsOrder(to, way, w, t, c, d);
      case Arrive(t) =>
        if c == Top(w.stacks[t]).from && way(Top(w.stacks[t]).rest[0].e) == d {
          FrontDelivered(to, way, w, t);
        } else {
          ElsewhereDelivered(to, way, w, t, c, d);
        }
      case _ => SendKeepsOrder(to, way, w, op, c, d);
    }
  }

  // ---------- runs ----------

  /** A run that always leaves c in order in direction d. */
  ghost predicate OrderlyRun(to: Target, way: Way, w: World, ops: seq<Op>, c: nat, d: nat)
    requires Inv(w) && Legal(to, w, ops)
    decreases |ops|
  {
    ops == [] ||
    (Orderly(way, w, ops[0], c, d) &&
     (StepKeeps(to, w, ops[0]); OrderlyRun(to, way, Apply(to, w, ops[0]).value, ops[1..], c, d)))
  }

  lemma {:induction false} RunKeepsOrder(to: Target, way: Way, w: World, ops: seq<Op>, c: nat, d: nat)
    requires Inv(w) && c < |w.cxs| && InOrderAt(way, w, c, d)
    requires Legal(to, w, ops) && OrderlyRun(to, way, w, ops, c, d)
    ensures var v := Run(to, w, ops); c < |v.cxs| && InOrderAt(way, v, c, d)
    decreases |ops|
  {
    hide Inv, InOrderAt, Orderly, Enabled, Apply;
    if ops != [] {
      StepKeeps(to, w, ops[0]);
      StepKeepsOrder(to, way, w, ops[0], c, d);
      RunKeepsOrder(to, way, Apply(to, w, ops[0]).value, ops[1..], c, d);
    }
  }

  lemma PrefixDelivered(way: Way, w: World, c: nat, d: nat)
    requires c < |w.cxs| && InOrderAt(way, w, c, d)
    ensures Of(way, w.cxs[c].delivered, d) <= Of(way, w.cxs[c].sent, d)
  {
  }

  lemma StartInOrder(way: Way, contexts: nat, threads: nat, c: nat, d: nat)
    requires c < contexts
    ensures InOrderAt(way, Start(contexts, threads), c, d)
  {
    assert forall t, k :: !Carries(way, Start(contexts, threads), c, d, t, k);
  }

  /** In a run that leaves a context in order in one direction, its events arrive there in
      the order they were sent, whatever happens elsewhere. */
  lemma DeliveredInOrder(to: Target, way: Way, contexts: nat, threads: nat, ops: seq<Op>, c: nat, d: nat)
    requires Inv(Start(contexts, threads)) && Legal(to, Start(contexts, threads), ops) && c < contexts
    requires OrderlyRun(to, way, Start(contexts, threads), ops, c, d)
    ensures var w := Run(to, Start(contexts, threads), ops);
            c < |w.cxs| && Of(way, w.cxs[c].delivered, d) <= Of(way, w.cxs[c].sent, d)
  {
    hide Inv, Legal, Run, InOrderAt;
    StartInOrder(way, contexts, threads, c, d);
    RunKeepsOrder(to, way, Start(contexts, threads), ops, c, d);
    PrefixDelivered(way, Run(to, Start(contexts, threads), ops), c, d);
  }
}
