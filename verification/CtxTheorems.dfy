/** What contexts guarantee over whole runs. */
module CtxTheorems {
  import opened Outcome
  import opened Seqs
  import opened Ctxs
  import opened CtxProofs

  // ---------- nothing is lost ----------

  /** The events of a context that are under way in one stack. */
  ghost function UnderWay(stack: seq<Batch>, c: nat): multiset<Sent>
  {
    if stack == [] then multiset{}
    else
      var n := |stack| - 1;
      UnderWay(stack[..n], c) + if stack[n].from == c then multiset(stack[n].rest) else multiset{}
  }

  /** The events of a context that are under way in any stack. */
  ghost function AllUnderWay(stacks: seq<seq<Batch>>, c: nat): multiset<Sent>
  {
    if stacks == [] then multiset{} else UnderWay(stacks[0], c) + AllUnderWay(stacks[1..], c)
  }

  lemma AddBoth(s: multiset<Sent>, x: multiset<Sent>, u: multiset<Sent>, y: multiset<Sent>, v: multiset<Sent>)
    requires x + u == y + v
    ensures (s + x) + u == (s + y) + v
  {
    forall e ensures ((s + x) + u)[e] == ((s + y) + v)[e] {
      assert (x + u)[e] == (y + v)[e];
    }
  }

  /** One change of a balance: `a` becomes `a2` by losing `lost` and gaining `won`. */
  lemma Rebalance(sent: multiset<Sent>, d: multiset<Sent>, a: multiset<Sent>, to: multiset<Sent>,
                  d2: multiset<Sent>, a2: multiset<Sent>, to2: multiset<Sent>,
                  lost: multiset<Sent>, won: multiset<Sent>)
    requires sent == d + a + to && a2 + lost == a + won && d2 + to2 + won == d + to + lost
    ensures sent == d2 + a2 + to2
  {
    forall e ensures sent[e] == (d2 + a2 + to2)[e] {
      assert (a2 + lost)[e] == (a + won)[e];
      assert (d2 + to2 + won)[e] == (d + to + lost)[e];
    }
  }

  lemma {:induction false} StackChanges(stacks: seq<seq<Batch>>, t: nat, stack: seq<Batch>, c: nat)
    requires t < |stacks|
    ensures AllUnderWay(stacks[t := stack], c) + UnderWay(stacks[t], c) == AllUnderWay(stacks, c) + UnderWay(stack, c)
  {
    hide UnderWay;
    var changed := stacks[t := stack];
    assert AllUnderWay(changed, c) == UnderWay(changed[0], c) + AllUnderWay(changed[1..], c);
    if t == 0 {
      assert stacks[t := stack][1..] == stacks[1..];
    } else {
      assert stacks[t := stack][1..] == stacks[1..][t - 1 := stack];
      StackChanges(stacks[1..], t - 1, stack, c);
      AddBoth(UnderWay(stacks[0], c), AllUnderWay(changed[1..], c), UnderWay(stacks[t], c),
              AllUnderWay(stacks[1..], c), UnderWay(stack, c));
    }
  }

  lemma PushBatch(stack: seq<Batch>, b: Batch, c: nat)
    ensures UnderWay(stack + [b], c) == UnderWay(stack, c) + if b.from == c then multiset(b.rest) else multiset{}
  {
  }

  lemma AdvanceBatch(stack: seq<Batch>, c: nat)
    requires stack != [] && Top(stack).rest != []
    ensures var b := Top(stack);
            UnderWay(Advance(stack), c) + (if b.from == c then multiset{b.rest[0]} else multiset{})
              == UnderWay(stack, c)
  {
    var n := |stack| - 1;
    var b := stack[n];
    assert b.rest == [b.rest[0]] + b.rest[1..];
    assert multiset(b.rest) == multiset{b.rest[0]} + multiset(b.rest[1..]);
    if b.rest[1..] != [] {
      assert Advance(stack)[..n] == stack[..n];
    }
  }

  /** What was sent from a context is delivered, under way, or still to be taken
      along, each event exactly as often. */
  ghost predicate ConservedAt(x: Cx, stacks: seq<seq<Batch>>, c: nat)
  {
    multiset(x.sent) == multiset(x.delivered) + AllUnderWay(stacks, c) + multiset(x.eventsto)
  }

  ghost predicate Conserved(w: World)
  {
    forall c | 0 <= c < |w.cxs| :: ConservedAt(w.cxs[c], w.stacks, c)
  }

  lemma LeaveConserves(x: Cx, y: Cx, stacks: seq<seq<Batch>>, t: nat, b: Batch, c: nat)
    requires ConservedAt(x, stacks, c) && t < |stacks|
    requires y.sent == x.sent && y.delivered == x.delivered
    requires if b.from == c then x.eventsto == b.rest && y.eventsto == [] else y.eventsto == x.eventsto
    ensures ConservedAt(y, stacks[t := stacks[t] + [b]], c)
  {
    var new_ := stacks[t] + [b];
    StackChanges(stacks, t, new_, c);
    PushBatch(stacks[t], b, c);
    Rebalance(multiset(x.sent), multiset(x.delivered), AllUnderWay(stacks, c), multiset(x.eventsto),
              multiset(y.delivered), AllUnderWay(stacks[t := new_], c), multiset(y.eventsto),
              UnderWay(stacks[t], c), UnderWay(new_, c));
  }

  lemma DeliverConserves(x: Cx, y: Cx, stacks: seq<seq<Batch>>, t: nat, c: nat)
    requires ConservedAt(x, stacks, c) && t < |stacks| && stacks[t] != [] && Top(stacks[t]).rest != []
    requires y.sent == x.sent && y.eventsto == x.eventsto
    requires y.delivered == x.delivered + if Top(stacks[t]).from == c then [Top(stacks[t]).rest[0]] else []
    ensures ConservedAt(y, stacks[t := Advance(stacks[t])], c)
  {
    hide Advance;
    var new_ := Advance(stacks[t]);
    StackChanges(stacks, t, new_, c);
    AdvanceBatch(stacks[t], c);
    Rebalance(multiset(x.sent), multiset(x.delivered), AllUnderWay(stacks, c), multiset(x.eventsto),
              multiset(y.delivered), AllUnderWay(stacks[t := new_], c), multiset(y.eventsto),
              UnderWay(stacks[t], c), UnderWay(new_, c));
  }

  lemma TakeConserves(x: Cx, stacks: seq<seq<Batch>>, t: nat, c: nat)
    requires ConservedAt(x, stacks, c) && t < |stacks| && stacks[t] != []
    ensures var n := |stacks[t]| - 1;
            ConservedAt(x, stacks[t := stacks[t][n := Top(stacks[t]).(taken := true)]], c)
  {
    var n := |stacks[t]| - 1;
    var new_ := stacks[t][n := Top(stacks[t]).(taken := true)];
    assert new_[..n] == stacks[t][..n];
    StackChanges(stacks, t, new_, c);
    assert UnderWay(new_, c) == UnderWay(stacks[t], c);
    SameLoad(AllUnderWay(stacks[t := new_], c), AllUnderWay(stacks, c), UnderWay(new_, c));
  }

  lemma SameLoad(a: multiset<Sent>, b: multiset<Sent>, u: multiset<Sent>)
    requires a + u == b + u
    ensures a == b
  {
    forall e ensures a[e] == b[e] {
      assert (a + u)[e] == (b + u)[e];
    }
  }

  lemma StepConserves(to: Target, w: World, op: Op)
    requires Inv(w) && Conserved(w) && Enabled(to, w, op) && Apply(to, w, op).Ok?
    ensures Conserved(Apply(to, w, op).value)
  {
    hide Inv, Advance, ConservedAt;
    var v := Apply(to, w, op).value;
    forall c | 0 <= c < |v.cxs| ensures ConservedAt(v.cxs[c], v.stacks, c) {
      assert ConservedAt(w.cxs[c], w.stacks, c);
      match op {
        case Leave(d) =>
          if w.cxs[d].eventsto != [] {
            LeaveConserves(w.cxs[c], v.cxs[c], w.stacks, w.cxs[d].owner[0], Batch(d, w.cxs[d].eventsto, false), c);
          } else {
            StillConserved(w.cxs[c], v.cxs[c], v.stacks, c, []);
          }
        case Arrive(t) => DeliverConserves(w.cxs[c], v.cxs[c], w.stacks, t, c);
        case Take(t) => TakeConserves(w.cxs[c], w.stacks, t, c);
        case RaiseTo(d, e) =>
          StillConserved(w.cxs[c], v.cxs[c], v.stacks, c, if c == d then [Sent(e, |w.cxs[c].sent|)] else []);
        case _ => StillConserved(w.cxs[c], v.cxs[c], v.stacks, c, []);
      }
    }
  }

  lemma StillConserved(x: Cx, y: Cx, stacks: seq<seq<Batch>>, c: nat, more: seq<Sent>)
    requires ConservedAt(x, stacks, c)
    requires y.sent == x.sent + more && y.delivered == x.delivered && y.eventsto == x.eventsto + more
    ensures ConservedAt(y, stacks, c)
  {
  }

  lemma {:induction false} RunConserves(to: Target, w: World, ops: seq<Op>)
    requires Inv(w) && Conserved(w) && Legal(to, w, ops)
    ensures Conserved(Run(to, w, ops))
    decreases |ops|
  {
    hide Inv, Conserved, Enabled, Apply;
    if ops != [] {
      StepKeeps(to, w, ops[0]);
      StepConserves(to, w, ops[0]);
      RunConserves(to, Apply(to, w, ops[0]).value, ops[1..]);
    }
  }

  lemma {:induction false} NothingUnderWay(stacks: seq<seq<Batch>>, c: nat)
    requires forall t | 0 <= t < |stacks| :: stacks[t] == []
    ensures AllUnderWay(stacks, c) == multiset{}
  {
    if stacks != [] {
      NothingUnderWay(stacks[1..], c);
    }
  }

  lemma StartConserves(contexts: nat, threads: nat)
    ensures Conserved(Start(contexts, threads))
  {
    var w := Start(contexts, threads);
    forall c | 0 <= c < |w.cxs| ensures ConservedAt(w.cxs[c], w.stacks, c) {
      NothingUnderWay(w.stacks, c);
    }
  }

  /** At any moment: a context nobody is in has an empty local queue and has
      processed exactly what was raised in it, in that order; no item is on two
      queues; and once no delivery is under way every event sent from it was
      delivered exactly once. */
  lemma DrainedAndDelivered(to: Target, contexts: nat, threads: nat, ops: seq<Op>, c: nat)
    requires Inv(Start(contexts, threads)) && Legal(to, Start(contexts, threads), ops) && c < contexts
    ensures var w := Run(to, Start(contexts, threads), ops);
            && OneQueue(w)
            && (Free(w, c) ==>
                  w.cxs[c].events == [] && w.cxs[c].eventsto == [] && w.cxs[c].processed == w.cxs[c].raised)
            && (Free(w, c) && (forall t | 0 <= t < |w.stacks| :: w.stacks[t] == []) ==>
                  multiset(w.cxs[c].delivered) == multiset(w.cxs[c].sent))
  {
    hide OneQueue;
    StartConserves(contexts, threads);
    RunConserves(to, Start(contexts, threads), ops);
    KeepsContexts(to, Start(contexts, threads), ops);
    var w := Run(to, Start(contexts, threads), ops);
    if forall t | 0 <= t < |w.stacks| :: w.stacks[t] == [] {
      NothingUnderWay(w.stacks, c);
    }
  }

  lemma {:induction false} KeepsContexts(to: Target, w: World, ops: seq<Op>)
    requires Inv(w) && Legal(to, w, ops)
    ensures |Run(to, w, ops).cxs| == |w.cxs|
    decreases |ops|
  {
    hide Inv;
    if ops != [] {
      StepKeeps(to, w, ops[0]);
      KeepsContexts(to, Apply(to, w, ops[0]).value, ops[1..]);
    }
  }
}
