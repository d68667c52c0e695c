/** Draining: nothing is left behind, nothing is on two queues, nothing is lost, and
    when deliveries keep the order in which they were raised. */
module CtxProofs {
  import opened Outcome
  import opened Seqs
  import opened Ctxs

  // ---------- one queue at a time ----------

  lemma PushKeepsOneQueue(w: World, v: World, q: QueueId, e: Ev)
    requires OneQueue(w) && e !in w.linked && v.linked == w.linked + {e}
    requires Items(v, q) == Items(w, q) + [e]
    requires forall r | r != q :: Items(v, r) == Items(w, r)
    ensures OneQueue(v)
  {
  }

  lemma PopKeepsOneQueue(w: World, v: World, q: QueueId)
    requires OneQueue(w) && Items(w, q) != [] && v.linked == w.linked - {Items(w, q)[0]}
    requires Items(v, q) == Items(w, q)[1..]
    requires forall r | r != q :: Items(v, r) == Items(w, r)
    ensures OneQueue(v)
  {
    hide Items;
    var e := Items(w, q)[0];
    assert Items(w, q) == [e] + Items(v, q);
  }

  lemma MoveKeepsOneQueue(w: World, v: World, q: QueueId, p: QueueId)
    requires OneQueue(w) && v.linked == w.linked && q != p
    requires Items(w, p) == [] == Items(v, q) && Items(v, p) == Items(w, q)
    requires forall r | r != q && r != p :: Items(v, r) == Items(w, r)
    ensures OneQueue(v)
  {
  }

  lemma SameItemsOneQueue(w: World, v: World)
    requires OneQueue(w) && v.linked == w.linked
    requires forall r :: Items(v, r) == Items(w, r)
    ensures OneQueue(v)
  {
  }

  lemma LeaveKeepsOneQueue(to: Target, w: World, c: nat)
    requires OneQueue(w) && Enabled(to, w, Leave(c))
    ensures OneQueue(Apply(to, w, Leave(c)).value)
  {
    hide OneQueue;
    var v := Apply(to, w, Leave(c)).value;
    var t := w.cxs[c].owner[0];
    if w.cxs[c].eventsto == [] {
      SameItemsOneQueue(w, v);
    } else {
      MoveKeepsOneQueue(w, v, EventsTo(c), InFlight(t, |w.stacks[t]|));
    }
  }

  lemma TakeKeepsOneQueue(to: Target, w: World, t: nat)
    requires OneQueue(w) && Enabled(to, w, Take(t))
    ensures OneQueue(Apply(to, w, Take(t)).value)
  {
    hide OneQueue;
    var n := |w.stacks[t]| - 1;
    var b := w.stacks[t][n];
    assert Objects(b.rest[1..]) == Objects(b.rest)[1..];
    PopKeepsOneQueue(w, Apply(to, w, Take(t)).value, InFlight(t, n));
  }

  lemma ArriveKeepsOneQueue(to: Target, w: World, t: nat)
    requires OneQueue(w) && Enabled(to, w, Arrive(t))
    ensures OneQueue(Apply(to, w, Arrive(t)).value)
  {
    hide OneQueue;
    SameItemsOneQueue(w, Apply(to, w, Arrive(t)).value);
  }

  lemma StepKeepsOneQueue(to: Target, w: World, op: Op)
    requires OneQueue(w) && Enabled(to, w, op) && Apply(to, w, op).Ok?
    ensures OneQueue(Apply(to, w, op).value)
  {
    hide OneQueue;
    match op {
      case Enter(_, _) => SameItemsOneQueue(w, Apply(to, w, op).value);
      case Raise(c, e) => PushKeepsOneQueue(w, Apply(to, w, op).value, Events(c), e);
      case RaiseTo(c, e) =>
        var v := Apply(to, w, op).value;
        assert Objects(v.cxs[c].eventsto) == Objects(w.cxs[c].eventsto) + [e];
        PushKeepsOneQueue(w, v, EventsTo(c), e);
      case Process(c) => PopKeepsOneQueue(w, Apply(to, w, op).value, Events(c));
      case Leave(c) => LeaveKeepsOneQueue(to, w, c);
      case Take(t) => TakeKeepsOneQueue(to, w, t);
      case Arrive(t) => ArriveKeepsOneQueue(to, w, t);
    }
  }

  lemma StepKeepsDrained(to: Target, w: World, op: Op)
    requires Inv(w) && Enabled(to, w, op) && Apply(to, w, op).Ok?
    ensures Drained(Apply(to, w, op).value)
  {
    hide Inv, Drained, Enabled, Apply;
    if op.Take? {
      assert Drained(w) by { InvParts(w); }
      TakeKeepsDrained(to, w, op.thread);
    } else if op.Arrive? {
      assert Drained(w) && Batches(w) by { InvParts(w); }
      ArriveKeepsDrained(to, w, op.thread);
    } else if op.Leave? {
      assert Drained(w) by { InvParts(w); }
      LeaveKeepsDrained(to, w, op.c);
    } else {
      assert Drained(w) by { InvParts(w); }
      WorkKeepsDrained(to, w, op);
    }
  }

  lemma InvParts(w: World)
    requires Inv(w)
    ensures OneQueue(w) && Drained(w) && Batches(w) && OneContext(w) && Numbered(w)
  {
  }

  lemma TakeKeepsDrained(to: Target, w: World, t: nat)
    requires Drained(w) && Enabled(to, w, Take(t))
    ensures Drained(Apply(to, w, Take(t)).value)
  {
  }

  lemma ArriveKeepsDrained(to: Target, w: World, t: nat)
    requires Drained(w) && Enabled(to, w, Arrive(t))
    ensures Drained(Apply(to, w, Arrive(t)).value)
  {
  }

  lemma LeaveKeepsDrained(to: Target, w: World, c: nat)
    requires Drained(w) && Enabled(to, w, Leave(c))
    ensures Drained(Apply(to, w, Leave(c)).value)
  {
  }

  /** The steps that leave the threads' deliveries alone. */
  lemma WorkKeepsDrained(to: Target, w: World, op: Op)
    requires Drained(w) && Enabled(to, w, op) && Apply(to, w, op).Ok? && !op.Take? && !op.Arrive? && !op.Leave?
    ensures Drained(Apply(to, w, op).value)
  {
  }

  lemma StepKeepsBatches(to: Target, w: World, op: Op)
    requires Inv(w) && Enabled(to, w, op) && Apply(to, w, op).Ok?
    ensures Batches(Apply(to, w, op).value)
  {
    hide OneQueue, Drained, OneContext, Numbered;
    match op {
      case Take(t) => TakeKeepsBatches(to, w, t);
      case Arrive(t) => ArriveKeepsBatches(to, w, t);
      case Leave(c) => LeaveKeepsBatches(to, w, c);
      case _ =>
    }
  }

  lemma TakeKeepsBatches(to: Target, w: World, t: nat)
    requires Batches(w) && Enabled(to, w, Take(t))
    ensures Batches(Apply(to, w, Take(t)).value)
  {
  }

  lemma ArriveKeepsBatches(to: Target, w: World, t: nat)
    requires Batches(w) && Enabled(to, w, Arrive(t))
    ensures Batches(Apply(to, w, Arrive(t)).value)
  {
  }

  lemma LeaveKeepsBatches(to: Target, w: World, c: nat)
    requires Batches(w) && Enabled(to, w, Leave(c))
    ensures Batches(Apply(to, w, Leave(c)).value)
  {
  }

  lemma StepKeepsOneContext(to: Target, w: World, op: Op)
    requires Inv(w) && Enabled(to, w, op) && Apply(to, w, op).Ok?
    ensures OneContext(Apply(to, w, op).value)
  {
    hide OneQueue, Drained, Batches, Numbered;
  }

  lemma StepKeepsNumbered(to: Target, w: World, op: Op)
    requires Numbered(w) && Enabled(to, w, op) && Apply(to, w, op).Ok?
    ensures Numbered(Apply(to, w, op).value)
  {
  }

  lemma StepKeeps(to: Target, w: World, op: Op)
    requires Inv(w) && Enabled(to, w, op) && Apply(to, w, op).Ok?
    ensures Inv(Apply(to, w, op).value)
  {
    hide OneQueue, Drained, Batches, OneContext, Numbered, Apply;
    StepKeepsNumbered(to, w, op);
    StepKeepsOneContext(to, w, op);
    StepKeepsOneQueue(to, w, op);
    StepKeepsDrained(to, w, op);
    StepKeepsBatches(to, w, op);
  }

  // ---------- runs ----------

  ghost predicate Legal(to: Target, w: World, ops: seq<Op>)
    requires Inv(w)
    decreases |ops|
  {
    ops == [] ||
    (Enabled(to, w, ops[0]) && Apply(to, w, ops[0]).Ok? &&
     (StepKeeps(to, w, ops[0]); Legal(to, Apply(to, w, ops[0]).value, ops[1..])))
  }

  ghost function Run(to: Target, w: World, ops: seq<Op>): (v: World)
    requires Inv(w) && Legal(to, w, ops)
    ensures Inv(v)
    decreases |ops|
  {
    if ops == [] then w
    else (StepKeeps(to, w, ops[0]); Run(to, Apply(to, w, ops[0]).value, ops[1..]))
  }
}
