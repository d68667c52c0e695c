/** One thread and two contexts are enough for an event to overtake an earlier one. */
module CtxExchange {
  import opened Outcome
  import opened Ctxs
  import opened CtxProofs

  function Swapping(e: Ev): nat
  {
    if e == 3 then 0 else 1
  }

  /** Context 0 sends 1 and 2 to context 1; the handler of 1 answers with 3, and the
      handler of 3 sends 4, which arrives before 2. */
  function Exchange(): seq<Op>
  {
    [Enter(0, 0), RaiseTo(0, 1), RaiseTo(0, 2), Leave(0), Take(0), Arrive(0), RaiseTo(1, 3), Leave(1),
     Take(0), Arrive(0), RaiseTo(0, 4), Leave(0), Take(0), Arrive(0)]
  }

  const ONE := Sent(1, 0)
  const TWO := Sent(2, 1)
  const THREE := Sent(3, 0)
  const FOUR := Sent(4, 2)

  function Zero(owner: seq<nat>, eventsto: seq<Sent>, sent: seq<Sent>, delivered: seq<Sent>): Cx
  {
    Cx(owner, [], eventsto, [], [], sent, delivered)
  }

  function Reached(k: nat): World
  {
    var me, none: seq<nat> := [0], [];
    if k == 0 then Start(2, 1)
    else if k == 1 then World([FRESH.(owner := me), FRESH], [[]], {})
    else if k == 2 then World([Zero(me, [ONE], [ONE], []), FRESH], [[]], {1})
    else if k == 3 then World([Zero(me, [ONE, TWO], [ONE, TWO], []), FRESH], [[]], {1, 2})
    else if k == 4 then World([Zero(none, [], [ONE, TWO], []), FRESH], [[Batch(0, [ONE, TWO], false)]], {1, 2})
    else if k == 5 then World([Zero(none, [], [ONE, TWO], []), FRESH], [[Batch(0, [ONE, TWO], true)]], {2})
    else if k == 6 then
      World([Zero(none, [], [ONE, TWO], [ONE]), FRESH.(owner := me)], [[Batch(0, [TWO], false)]], {2})
    else if k == 7 then
      World([Zero(none, [], [ONE, TWO], [ONE]), Zero(me, [THREE], [THREE], [])], [[Batch(0, [TWO], false)]], {2, 3})
    else Later(k)
  }

  function Later(k: nat): World
  {
    var me, none: seq<nat> := [0], [];
    var two, three, four := Batch(0, [TWO], false), Batch(1, [THREE], false), Batch(0, [FOUR], false);
    if k == 8 then
      World([Zero(none, [], [ONE, TWO], [ONE]), Zero(none, [], [THREE], [])], [[two, three]], {2, 3})
    else if k == 9 then
      World([Zero(none, [], [ONE, TWO], [ONE]), Zero(none, [], [THREE], [])], [[two, three.(taken := true)]], {2})
    else if k == 10 then
      World([Zero(me, [], [ONE, TWO], [ONE]), Zero(none, [], [THREE], [THREE])], [[two]], {2})
    else if k == 11 then
      World([Zero(me, [FOUR], [ONE, TWO, FOUR], [ONE]), Zero(none, [], [THREE], [THREE])], [[two]], {2, 4})
    else if k == 12 then
      World([Zero(none, [], [ONE, TWO, FOUR], [ONE]), Zero(none, [], [THREE], [THREE])], [[two, four]], {2, 4})
    else if k == 13 then
      World([Zero(none, [], [ONE, TWO, FOUR], [ONE]), Zero(none, [], [THREE], [THREE])],
            [[two, four.(taken := true)]], {2})
    else
      World([Zero(none, [], [ONE, TWO, FOUR], [ONE, FOUR]), Zero(me, [], [THREE], [THREE])], [[two]], {2})
  }

  predicate SameCx(x: Cx, y: Cx)
  {
    && x.owner == y.owner && x.events == y.events && x.eventsto == y.eventsto
    && x.raised == y.raised && x.processed == y.processed && x.sent == y.sent && x.delivered == y.delivered
  }

  lemma SameWorld(v: World, u: World)
    requires |v.cxs| == |u.cxs| == 2 && SameCx(v.cxs[0], u.cxs[0]) && SameCx(v.cxs[1], u.cxs[1])
    requires |v.stacks| == |u.stacks| == 1 && |v.stacks[0]| == |u.stacks[0]| && v.linked == u.linked
    requires forall j | 0 <= j < |u.stacks[0]| ::
               && v.stacks[0][j].from == u.stacks[0][j].from && v.stacks[0][j].rest == u.stacks[0][j].rest
               && v.stacks[0][j].taken == u.stacks[0][j].taken
    ensures v == u
  {
    assert v.cxs == u.cxs;
    assert v.stacks[0] == u.stacks[0];
    assert v.stacks == u.stacks;
  }

  predicate Steps(k: nat)
    requires k < 14
  {
    Enabled(Swapping, Reached(k), Exchange()[k]) && Apply(Swapping, Reached(k), Exchange()[k]) == Ok(Reached(k + 1))
  }

  lemma FirstSteps(k: nat)
    requires k < 3
    ensures Steps(k)
  {
    SameWorld(Apply(Swapping, Reached(k), Exchange()[k]).value, Reached(k + 1));
  }

  lemma FirstDelivery(k: nat)
    requires 3 <= k < 6
    ensures Steps(k)
  {
    SameWorld(Apply(Swapping, Reached(k), Exchange()[k]).value, Reached(k + 1));
  }

  lemma Answer(k: nat)
    requires 6 <= k < 8
    ensures Steps(k)
  {
    SameWorld(Apply(Swapping, Reached(k), Exchange()[k]).value, Reached(k + 1));
  }

  lemma AnswerDelivered(k: nat)
    requires 8 <= k < 10
    ensures Steps(k)
  {
    SameWorld(Apply(Swapping, Later(k), Exchange()[k]).value, Later(k + 1));
  }

  lemma Reply(k: nat)
    requires 10 <= k < 12
    ensures Steps(k)
  {
    SameWorld(Apply(Swapping, Later(k), Exchange()[k]).value, Later(k + 1));
  }

  lemma ReplyDelivered(k: nat)
    requires 12 <= k < 14
    ensures Steps(k)
  {
    SameWorld(Apply(Swapping, Later(k), Exchange()[k]).value, Later(k + 1));
  }

  lemma EveryStep(k: nat)
    requires k < 14
    ensures Steps(k)
  {
    hide Steps;
    if k < 3 {
      FirstSteps(k);
    } else if k < 6 {
      FirstDelivery(k);
    } else if k < 8 {
      Answer(k);
    } else if k < 10 {
      AnswerDelivered(k);
    } else if k < 12 {
      Reply(k);
    } else {
      ReplyDelivered(k);
    }
  }

  lemma ExchangeLength()
    ensures |Exchange()| == 14
  {
  }

  lemma {:induction false} ReachedFrom(k: nat)
    requires k <= 14 && |Exchange()| == 14 && Inv(Reached(k))
    ensures Legal(Swapping, Reached(k), Exchange()[k..])
    ensures Run(Swapping, Reached(k), Exchange()[k..]) == Reached(14)
    decreases 14 - k
  {
    hide Inv, Reached, Exchange, Apply, Enabled;
    if k == 14 {
      assert Exchange()[k..] == [];
    } else {
      EveryStep(k);
      StepKeeps(Swapping, Reached(k), Exchange()[k]);
      ReachedFrom(k + 1);
      assert Exchange()[k..][0] == Exchange()[k] && Exchange()[k..][1..] == Exchange()[k + 1..];
    }
  }

  /** So deliveries do not keep their order in general. */
  lemma OneThreadOvertakes() returns (w: World, ops: seq<Op>)
    ensures w == Start(2, 1) && Inv(w) && Legal(Swapping, w, ops)
    ensures var v := Run(Swapping, w, ops);
            |v.cxs| == 2 && v.cxs[0].sent == [ONE, TWO, FOUR] && v.cxs[0].delivered == [ONE, FOUR]
  {
    hide Inv, Legal, Run, Exchange;
    w, ops := Reached(0), Exchange()[0..];
    StartIsGood(2, 1);
    ExchangeLength();
    ReachedFrom(0);
  }
}
