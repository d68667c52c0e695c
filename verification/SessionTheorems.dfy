/** Safety, conservation and shutdown of a paired session, over whole runs. */
module SessionTheorems {
  import opened Outcome
  import opened Messages
  import opened Session
  import opened SessionInvariant

  // ---------- every run ----------

  ghost predicate Good(p: Pair)
  {
    Inv(View(p, A))
  }

  lemma EitherView(p: Pair, x: End)
    ensures Good(p) <==> Inv(View(p, x))
  {
  }

  function Start(maxA: nat, maxB: nat): Pair
  {
    var w := Accept(Connected(maxA), maxB).Extract();
    Pair(w.peer, w.me)
  }

  lemma StartIsGood(maxA: nat, maxB: nat)
    ensures Good(Start(maxA, maxB))
  {
  }

  lemma StepIsGood(p: Pair, s: Step)
    requires Good(p) && Enabled(View(p, s.x), s) && Careful(View(p, s.x), s)
    ensures Apply(View(p, s.x), s).Ok?
    ensures Good(Back(Apply(View(p, s.x), s).value, s.x))
  {
    EitherView(p, s.x);
    StepKeeps(View(p, s.x), s);
    var w := Apply(View(p, s.x), s).value;
    assert View(Back(w, s.x), s.x) == w;
    EitherView(Back(w, s.x), s.x);
  }

  /** No careful run reaches a fatal check, and the invariant holds at its end. */
  lemma {:induction false} RunIsSafe(p: Pair, steps: seq<Step>)
    requires Good(p) && CarefulRun(p, steps)
    ensures Run(p, steps).Ok? && Good(Run(p, steps).value)
    decreases |steps|
  {
    hide Good, Enabled, Careful, Apply;
    if steps != [] {
      var w := View(p, steps[0].x);
      if Enabled(w, steps[0]) {
        StepIsGood(p, steps[0]);
        RunIsSafe(Back(Apply(w, steps[0]).value, steps[0].x), steps[1..]);
      } else {
        RunIsSafe(p, steps[1..]);
      }
    }
  }

  // ---------- what a reachable state looks like ----------

  ghost predicate Reachable(p: Pair)
  {
    exists maxA, maxB, steps ::
      CarefulRun(Start(maxA, maxB), steps) && Run(Start(maxA, maxB), steps) == Ok(p)
  }

  lemma ReachableIsGood(p: Pair)
    requires Reachable(p)
    ensures Good(p)
  {
    var maxA, maxB, steps :| CarefulRun(Start(maxA, maxB), steps) && Run(Start(maxA, maxB), steps) == Ok(p);
    StartIsGood(maxA, maxB);
    RunIsSafe(Start(maxA, maxB), steps);
  }

  /** Between two active ends nothing is lost, reordered or invented; whatever
      happens later, what was delivered are the first of the messages sent, in order,
      each with the bytes of its protocol header and then those of its body. */
  lemma MessagesAreConserved(p: Pair, x: End)
    requires Reachable(p)
    ensures var w := View(p, x);
            && |w.peer.delivered| <= |w.me.accepted|
            && forall i | 0 <= i < |w.peer.delivered| :: Arrived(w.me.accepted[i], w.peer.delivered[i])
    ensures var w := View(p, x);
            var there := w.peer.delivered + w.peer.queue
                         + (if SentEv in w.peer.inbox || w.peer.receiving then [w.me.msg] else []);
            w.me.state == Active && w.peer.state == Active ==>
              && |w.me.accepted| == |there|
              && forall i | 0 <= i < |there| :: Arrived(w.me.accepted[i], there[i])
  {
    ReachableIsGood(p);
    EitherView(p, x);
    var w := View(p, x);
    hide Half, Carried;
    assert w.peer.delivered <= OnTheWay(w.me, w.peer);
    forall i | 0 <= i < |w.me.accepted|
      ensures Arrived(w.me.accepted[i], Carried(w.me.accepted)[i])
    {
      CarriedIs(w.me.accepted, i);
    }
  }

  /** SENT leaves the message parked exactly if the receiver's queue holds one already and
      its bytes, with those of the message, reach the bound; otherwise it is taken. */
  lemma ParkedIsExact(w: Ends, k: nat, added: bool)
    requires Inv(w) && w.me.state == Active && k < |w.me.inbox| && w.me.inbox[k] == SentEv
    ensures Deliver(w, k, added).Ok?
    ensures var v := Deliver(w, k, added).value;
            var full := w.me.queue != []
                        && |Joined(w.me.queue)| + |w.peer.msg.sphdr| + |w.peer.msg.body| >= w.me.maxmem;
            && (v.me.receiving <==> full)
            && v.me.queue == (if full then w.me.queue else w.me.queue + [w.peer.msg])
            && v.peer.msg == (if full then w.peer.msg else EMPTY)
            && v.peer.inbox == (if full then w.peer.inbox else w.peer.inbox + [ReceivedEv])
  {
    SentIs(w, k);
    ActiveIgnoresAdded(w, k, added);
    NotParkedTwice(w);
    hide Control, Deliver, Joined;
  }

  lemma NotParkedTwice(w: Ends)
    requires Control(w) && SentEv in w.me.inbox
    ensures !w.me.receiving
  {
  }

  /** A receive moves the parked message up exactly if the queue is then empty or the
      bytes left in it, with those of the message, stay under the bound. */
  lemma MovesUpIsExact(w: Ends)
    requires Inv(w) && PipeRecv(w).Ok?
    ensures w.me.queue != []
    ensures var v := PipeRecv(w).value;
            var rest := w.me.queue[1..];
            var up := w.me.state == Active && w.me.receiving &&
                      (rest == [] || |Joined(rest)| + |w.peer.msg.sphdr| + |w.peer.msg.body| < w.me.maxmem);
            && (v.me.receiving <==> w.me.receiving && !up)
            && v.me.queue == (if up then rest + [w.peer.msg] else rest)
            && v.peer.msg == (if up then EMPTY else w.peer.msg)
            && v.peer.inbox == (if up then w.peer.inbox + [ReceivedEv] else w.peer.inbox)
  {
    hide Control, PipeRecv, Joined;
    RecvGuard(w);
  }

  lemma SendingIsOneToken(p: Pair, x: End)
    requires Reachable(p)
    requires View(p, x).me.state == Active && View(p, x).peer.state == Active
    ensures var w := View(p, x);
            w.me.sending <==> ExactlyOne(SentEv in w.peer.inbox, w.peer.receiving, ReceivedEv in w.me.inbox)
    ensures var w := View(p, x);
            !(SentEv in w.peer.inbox && w.peer.receiving) && !(SentEv in w.peer.inbox && ReceivedEv in w.me.inbox)
            && !(w.peer.receiving && ReceivedEv in w.me.inbox)
  {
    ReachableIsGood(p);
    EitherView(p, x);
  }

  lemma PipeMirrorsSession(p: Pair, x: End)
    requires Reachable(p) && View(p, x).me.state == Active
    ensures var n := View(p, x).me;
            && (n.pipe.instate == InIdle <==> n.queue != [])
            && (n.pipe.instate == InAsync <==> n.queue == [])
            && (n.pipe.outstate == OutAsync <==> n.sending)
            && (n.pipe.outstate == OutIdle <==> !n.sending)
            && (n.receiving ==> n.queue != [])
  {
    ReachableIsGood(p);
    EitherView(p, x);
  }

  /** A mailbox is written by its own end only while it holds nothing, and by the
      other end only to take what was announced to it. */
  lemma MailboxHasOneOwner(p: Pair, s: Step)
    requires Reachable(p) && Enabled(View(p, s.x), s) && Careful(View(p, s.x), s)
    ensures Apply(View(p, s.x), s).Ok?
    ensures var w := View(p, s.x); var v := Apply(w, s).value;
            && (v.me.msg != w.me.msg ==> s.DoSend? && !w.me.sending && v.me.sending)
            && (v.peer.msg != w.peer.msg ==>
                  && InMailbox(w.peer, w.me) && v.peer.msg == EMPTY
                  && v.me.delivered + v.me.queue == w.me.delivered + w.me.queue + [w.peer.msg])
  {
    ReachableIsGood(p);
    StepIsGood(p, s);
    EitherView(p, s.x);
    OwnerOfMailbox(View(p, s.x), s);
  }

  /** The peer's mailbox changes only by moving into this end's queue. */
  ghost predicate OnlyTakes(w: Ends, v: Ends)
  {
    v.peer.msg != w.peer.msg ==>
      && InMailbox(w.peer, w.me) && v.peer.msg == EMPTY
      && v.me.delivered + v.me.queue == w.me.delivered + w.me.queue + [w.peer.msg]
  }

  ghost predicate LeavesMailboxes(w: Ends, r: Result<Ends>)
  {
    r.Ok? ==> r.value.me.msg == w.me.msg && r.value.peer.msg == w.peer.msg
  }

  lemma HandlerLeavesMailboxes(w: Ends, e: Event, added: bool)
    requires w.me.state == Active ==> e != SentEv
    ensures LeavesMailboxes(w, Handler(w, e, added))
  {
  }

  lemma ShutdownLeavesMailboxes(w: Ends, c: Cause)
    ensures LeavesMailboxes(w, Shutdown(w, c))
  {
    EventsLeaveMailboxes(w, c);
    hide ShutdownEvents;
  }

  lemma StopLeavesMailboxes(w: Ends)
    ensures LeavesMailboxes(w, Stop(w))
  {
    hide Shutdown;
    ShutdownLeavesMailboxes(w.(me := w.me.(fsm := FsmStopping)), StopAction);
  }

  lemma EventsLeaveMailboxes(w: Ends, c: Cause)
    ensures LeavesMailboxes(w, ShutdownEvents(w, c))
  {
  }

  lemma SentTakes(w: Ends, k: nat)
    requires Control(w) && w.me.state == Active && k < |w.me.inbox| && w.me.inbox[k] == SentEv
    ensures OnlyTakes(w, AfterSent(Taken(w, k))) && AfterSent(Taken(w, k)).me.msg == w.me.msg
  {
  }

  lemma RecvTakes(w: Ends)
    requires |w.me.queue| > 0
    ensures OnlyTakes(w, AfterRecv(w)) && AfterRecv(w).me.msg == w.me.msg
  {
  }

  lemma OwnerOfMailbox(w: Ends, s: Step)
    requires Inv(w) && Enabled(w, s) && Careful(w, s) && Apply(w, s).Ok?
    ensures var v := Apply(w, s).value;
            OnlyTakes(w, v) && (v.me.msg != w.me.msg ==> s.DoSend? && !w.me.sending && v.me.sending)
  {
    hide Half, Conserved, Deliver, Stop, PipeSend, PipeRecv, AfterRecv, OnlyTakes;
    match s
    case DoSend(_, m) =>
      assert Control(w) && !w.me.sending by { SendGuard(w, m); }
      SendIs(w, m);
      NothingTaken(w, AfterSend(w, m));
    case DoRecv(_) => RecvGuard(w); RecvTakes(w);
    case DoStop(_) =>
      StopLeavesMailboxes(w);
      NothingTaken(w, Stop(w).value);
    case DoDeliver(_, k, added) => DeliveryTakes(w, k, added);
    case _ => NothingTaken(w, Apply(w, s).value);
  }

  lemma NothingTaken(w: Ends, v: Ends)
    requires v.peer.msg == w.peer.msg
    ensures OnlyTakes(w, v)
  {
  }

  lemma DeliveryTakes(w: Ends, k: nat, added: bool)
    requires Control(w) && k < |w.me.inbox| && Deliver(w, k, added).Ok?
    ensures var v := Deliver(w, k, added).value; OnlyTakes(w, v) && v.me.msg == w.me.msg
  {
    hide Control, Handler, Shutdown, OnlyTakes, AfterSent, TakeOff;
    if w.me.state == Active && w.me.inbox[k] == SentEv {
      SentIs(w, k);
      SentTakes(w, k);
      assert Deliver(w, k, added) == Deliver(w, k, true) by { ActiveIgnoresAdded(w, k, added); }
      hide Deliver;
    } else {
      ShutdownLeavesMailboxes(Taken(w, k), FromPeer(w.me.inbox[k]));
      HandlerLeavesMailboxes(Taken(w, k), w.me.inbox[k], added);
      NothingTaken(w, Deliver(w, k, added).value);
    }
  }

  lemma ActiveIgnoresAdded(w: Ends, k: nat, added: bool)
    requires w.me.state == Active && k < |w.me.inbox|
    ensures Deliver(w, k, added) == Deliver(w, k, true)
  {
  }

  // ---------- the asserts of the pipe ----------

  /** A pipe takes a message exactly when its session is active and not sending. */
  lemma SendGuardIsExact(p: Pair, x: End, m: Msg)
    requires Reachable(p)
    ensures var w := View(p, x);
            PipeSend(w, m).Ok? <==> w.me.state == Active && !w.me.sending
  {
    ReachableIsGood(p);
    EitherView(p, x);
    SendGuard(View(p, x), m);
  }

  lemma SendGuard(w: Ends, m: Msg)
    requires Control(w)
    ensures PipeSend(w, m).Ok? <==> w.me.state == Active && !w.me.sending
  {
  }

  /** A pipe gives a message exactly when it has one, also after a disconnect. */
  lemma RecvGuardIsExact(p: Pair, x: End)
    requires Reachable(p)
    ensures var w := View(p, x);
            PipeRecv(w).Ok? <==> (w.me.state == Active || w.me.state == Disconnected) && w.me.queue != []
    ensures var w := View(p, x);
            PipeRecv(w).Ok? ==> PipeRecv(w).value.me.delivered == w.me.delivered + [w.me.queue[0]]
  {
    ReachableIsGood(p);
    EitherView(p, x);
    RecvGuard(View(p, x));
  }

  lemma RecvGuard(w: Ends)
    requires Control(w)
    ensures PipeRecv(w).Ok? <==> (w.me.state == Active || w.me.state == Disconnected) && w.me.queue != []
    ensures PipeRecv(w).Ok? ==> PipeRecv(w) == Ok(AfterRecv(w))
  {
    if (w.me.state == Active || w.me.state == Disconnected) && w.me.queue != [] {
      RecvIs(w);
    }
  }

  /** All that a step writes at the peer is its inbox and its mailbox. */
  predicate Framed(w: Ends, r: Result<Ends>)
  {
    r.Ok? ==> r.value.peer == w.peer.(inbox := r.value.peer.inbox, msg := r.value.peer.msg)
  }

  lemma SendFrame(w: Ends, m: Msg)
    ensures Framed(w, PipeSend(w, m))
  {
  }

  lemma RecvFrame(w: Ends)
    ensures Framed(w, PipeRecv(w))
  {
    if w.me.pipe.instate == InIdle {
      InnerRecvFrame(SetIn(w, InReceiving));
    }
  }

  lemma InnerRecvFrame(w: Ends)
    ensures Framed(w, Recv(w))
  {
    hide Unpark, PipeReceived;
    if w.me.queue != [] {
      UnparkFrame(Ends(w.me.(queue := w.me.queue[1..], delivered := w.me.delivered + [w.me.queue[0]]), w.peer));
    }
  }

  lemma UnparkFrame(w: Ends)
    ensures Framed(w, Unpark(w))
  {
    hide Full, RaiseTo;
    RaiseToFrame(Ends(w.me.(queue := w.me.queue + [w.peer.msg]), w.peer.(msg := EMPTY)), ReceivedEv);
  }

  lemma HandlerFrame(w: Ends, e: Event, added: bool)
    ensures Framed(w, Handler(w, e, added))
  {
    hide OnSent, OnReady, OnDisconnect, OnReceived, OnAccepted, PipeStart, Full;
    match w.me.state
    case Connecting => OnReadyFrame(w, added);
    case Ready => OnAcceptedFrame(w, added);
    case Active =>
      SentFrame(w);
      OnReceivedFrame(w);
      OnDisconnectFrame(w);
    case _ =>
  }

  lemma OnReadyFrame(w: Ends, added: bool)
    ensures Framed(w, OnReady(w, added))
  {
  }

  lemma OnAcceptedFrame(w: Ends, added: bool)
    ensures Framed(w, OnAccepted(w, added))
  {
  }

  lemma OnReceivedFrame(w: Ends)
    ensures Framed(w, OnReceived(w))
  {
  }

  lemma OnDisconnectFrame(w: Ends)
    ensures Framed(w, OnDisconnect(w))
  {
  }

  lemma RaiseToFrame(w: Ends, e: Event)
    ensures Framed(w, RaiseTo(w, e))
  {
  }

  lemma SentFrame(w: Ends)
    ensures Framed(w, OnSent(w))
  {
    hide Full, RaiseTo, PipeReceived;
    var w1 := Ends(w.me.(queue := w.me.queue + [w.peer.msg]), w.peer.(msg := EMPTY));
    RaiseToFrame(if Announce(w1).Ok? && w.me.queue == [] then Announce(w1).value else w1, ReceivedEv);
  }

  lemma ShutdownFrame(w: Ends, c: Cause)
    ensures Framed(w, Shutdown(w, c))
  {
    EventsFrame(w, c);
    hide ShutdownEvents;
  }

  lemma EventsFrame(w: Ends, c: Cause)
    ensures Framed(w, ShutdownEvents(w, c))
  {
    hide RaiseTo;
    RaiseToFrame(w.(me := w.me.(pipe := PipeStop(w.me.pipe))), DisconnectEv);
  }

  lemma PeerFrame(w: Ends, s: Step)
    requires Enabled(w, s)
    ensures Framed(w, Apply(w, s))
  {
    hide PipeSend, PipeRecv, Handler, Shutdown;
    match s
    case DoSend(_, m) => SendFrame(w, m);
    case DoRecv(_) => RecvFrame(w);
    case DoDeliver(_, k, added) =>
      ShutdownFrame(Taken(w, k), FromPeer(w.me.inbox[k]));
      HandlerFrame(Taken(w, k), w.me.inbox[k], added);
    case DoStop(_) => ShutdownFrame(w.(me := w.me.(fsm := FsmStopping)), StopAction);
    case _ =>
  }

  // ---------- back-pressure ----------

  /** The end's context is left: what it raised to itself is processed. */
  function Settling(x: End): seq<Step>
  {
    [DoTakeIn(x), DoTakeOut(x), DoOwner(x)]
  }

  function Settle(w: Ends): Ends
  {
    var p := w.me.pipe;
    var p1 := if p.inQueued then TakeIn(p) else p;
    w.(me := w.me.(pipe := if p1.outQueued then TakeOut(p1) else p1, told := false))
  }

  lemma SettleKeeps(w: Ends)
    requires Inv(w)
    ensures Inv(Settle(w)) && !Pending(Settle(w).me)
  {
    hide Inv;
    var w1 := if w.me.pipe.inQueued then w.(me := w.me.(pipe := TakeIn(w.me.pipe))) else w;
    if w.me.pipe.inQueued {
      TakeInKeeps(w);
    }
    var w2 := if w1.me.pipe.outQueued then w1.(me := w1.me.(pipe := TakeOut(w1.me.pipe))) else w1;
    if w1.me.pipe.outQueued {
      TakeOutKeeps(w1);
    }
    if w2.me.told {
      OwnerKeeps(w2);
    }
    assert Settle(w) == w2.(me := w2.me.(told := false));
  }

  /** A draining step, taken if there is something to drain. */
  lemma RunDraining(p: Pair, s: Step, rest: seq<Step>, v: Ends)
    requires s.DoTakeIn? || s.DoTakeOut? || s.DoOwner?
    requires v == if Enabled(View(p, s.x), s) then Apply(View(p, s.x), s).value else View(p, s.x)
    ensures Run(p, [s] + rest) == Run(Back(v, s.x), rest)
    ensures CarefulRun(p, [s] + rest) == CarefulRun(Back(v, s.x), rest)
  {
  }

  lemma RunSettling(p: Pair, x: End)
    ensures Run(p, Settling(x)) == Ok(Back(Settle(View(p, x)), x)) && CarefulRun(p, Settling(x))
  {
    hide Run, CarefulRun, Enabled, Apply, Settle, View, Back;
    var w := View(p, x);
    var w1, w2, w3 := TakenIn(w), TakenOut(TakenIn(w)), Settle(w);
    SettleIs(w);
    BackAndForth(w1, x);
    BackAndForth(w2, x);
    SettlingIs(x);
    hide Settling, TakenIn, TakenOut;
    DrainingIs(w, x);
    DrainingIs(w1, x);
    DrainingIs(w2, x);
    RunDraining(p, DoTakeIn(x), [DoTakeOut(x)] + ([DoOwner(x)] + []), w1);
    RunDraining(Back(w1, x), DoTakeOut(x), [DoOwner(x)] + [], w2);
    RunDraining(Back(w2, x), DoOwner(x), [], w3);
    RunNothing(Back(w3, x));
  }

  function TakenIn(w: Ends): Ends
  {
    if w.me.pipe.inQueued then w.(me := w.me.(pipe := TakeIn(w.me.pipe))) else w
  }

  function TakenOut(w: Ends): Ends
  {
    if w.me.pipe.outQueued then w.(me := w.me.(pipe := TakeOut(w.me.pipe))) else w
  }

  function OwnerIs(w: Ends): Ends
  {
    w.(me := w.me.(told := false))
  }

  lemma SettleIs(w: Ends)
    ensures Settle(w) == OwnerIs(TakenOut(TakenIn(w)))
  {
  }

  lemma BackAndForth(w: Ends, x: End)
    ensures View(Back(w, x), x) == w
  {
  }

  lemma SettlingIs(x: End)
    ensures Settling(x) == [DoTakeIn(x)] + ([DoTakeOut(x)] + ([DoOwner(x)] + []))
  {
  }

  /** What each of the draining steps comes to. */
  lemma DrainingIs(w: Ends, x: End)
    ensures (if Enabled(w, DoTakeIn(x)) then Apply(w, DoTakeIn(x)) else Ok(w)) == Ok(TakenIn(w))
    ensures (if Enabled(w, DoTakeOut(x)) then Apply(w, DoTakeOut(x)) else Ok(w)) == Ok(TakenOut(w))
    ensures (if Enabled(w, DoOwner(x)) then Apply(w, DoOwner(x)) else Ok(w)) == Ok(OwnerIs(w))
  {
  }

  lemma RunNothing(p: Pair)
    ensures Run(p, []) == Ok(p) && CarefulRun(p, [])
  {
  }

  /** The same step n times, the end's context left in between. */
  function Repeat(s: Step, n: nat): seq<Step>
  {
    if n == 0 then [] else ([s] + Settling(s.x)) + Repeat(s, n - 1)
  }

  /** That, seen from the end that takes the steps. */
  function Repeated(w: Ends, s: Step, n: nat): Result<Ends>
    decreases n
  {
    if n == 0 then Ok(w)
    else
      var v :- if Enabled(w, s) then Apply(w, s) else Ok(w);
      Repeated(Settle(v), s, n - 1)
  }

  lemma {:induction false} RunRepeat(p: Pair, s: Step, n: nat, w: Ends)
    requires Repeated(View(p, s.x), s, n) == Ok(w)
    ensures Run(p, Repeat(s, n)) == Ok(Back(w, s.x))
    decreases n
  {
    hide Settle, Settling, Enabled, Apply;
    var w0 := View(p, s.x);
    assert Back(w0, s.x) == p;
    if n > 0 {
      var v := if Enabled(w0, s) then Apply(w0, s).value else w0;
      var q := Back(v, s.x);
      assert View(q, s.x) == v;
      OneStep(p, s);
      RunSettling(q, s.x);
      RunConcat(p, [s], Settling(s.x), q);
      assert View(Back(Settle(v), s.x), s.x) == Settle(v);
      RunConcat(p, [s] + Settling(s.x), Repeat(s, n - 1), Back(Settle(v), s.x));
      RunRepeat(Back(Settle(v), s.x), s, n - 1, w);
    }
  }

  lemma OneStep(p: Pair, s: Step)
    ensures var w := View(p, s.x);
            Run(p, [s]) == if !Enabled(w, s) then Ok(p)
                           else if Apply(w, s).Ok? then Ok(Back(Apply(w, s).value, s.x))
                           else Abort(Apply(w, s).file, Apply(w, s).line)
  {
  }

  lemma RunFirst(p: Pair, s: Step, rest: seq<Step>)
    requires Enabled(View(p, s.x), s) && Apply(View(p, s.x), s).Ok?
    ensures Run(p, [s] + rest) == Run(Back(Apply(View(p, s.x), s).value, s.x), rest)
    ensures CarefulRun(p, [s] + rest) <==>
              Careful(View(p, s.x), s) && CarefulRun(Back(Apply(View(p, s.x), s).value, s.x), rest)
  {
  }

  lemma {:induction false} RunConcat(p: Pair, s1: seq<Step>, s2: seq<Step>, q: Pair)
    requires Run(p, s1) == Ok(q)
    ensures Run(p, s1 + s2) == Run(q, s2)
    decreases |s1|
  {
    if s1 == [] {
      assert s1 + s2 == s2;
    } else {
      assert (s1 + s2)[0] == s1[0] && (s1 + s2)[1..] == s1[1..] + s2;
      var w := View(p, s1[0].x);
      if Enabled(w, s1[0]) {
        RunConcat(Back(Apply(w, s1[0]).value, s1[0].x), s1[1..], s2, q);
      } else {
        RunConcat(p, s1[1..], s2, q);
      }
    }
  }

  predicate Waiting(n: Node)
  {
    n.state == Active && n.receiving && n.pipe.inGrant && !Pending(n)
  }

  /** What v must look like once the message parked in w was taken. */
  ghost predicate Released(w: Ends, v: Ends)
  {
    && !v.me.receiving && v.me.state == w.me.state && v.peer.state == w.peer.state
    && v.peer.inbox == w.peer.inbox + [ReceivedEv] && v.peer == w.peer.(inbox := v.peer.inbox, msg := v.peer.msg)
    && v.me.delivered + v.me.queue == w.me.delivered + w.me.queue + [w.peer.msg]
  }

  lemma ReceiveMovesUp(w: Ends)
    requires |w.me.queue| > 0 && MovesUp(Popped(w))
    ensures Released(w, Settle(AfterRecv(w)))
  {
  }

  lemma ReceiveKeepsWaiting(w: Ends)
    requires |w.me.queue| > 0 && Waiting(w.me) && !MovesUp(Popped(w)) && AfterRecv(w).me.queue != []
    ensures var v := AfterRecv(w);
            && Settle(v) == v && Waiting(v.me) && v.me.queue == w.me.queue[1..] && v.peer == w.peer
            && v.me.delivered + v.me.queue == w.me.delivered + w.me.queue
  {
  }

  lemma WaitingCanReceive(w: Ends)
    requires Inv(w) && Waiting(w.me)
    ensures w.me.queue != [] && PipeRecv(w) == Ok(AfterRecv(w))
    ensures Inv(AfterRecv(w)) && Inv(Settle(AfterRecv(w)))
    ensures AfterRecv(w).me.receiving ==> AfterRecv(w).me.queue != []
  {
    WaitingHas(w);
    hide Half, Conserved, PipeRecv, AfterRecv, Settle;
    RecvIs(w);
    RecvKeeps(w);
    SettleKeeps(AfterRecv(w));
    ReceivingHas(AfterRecv(w));
  }

  lemma WaitingHas(w: Ends)
    requires Inv(w) && Waiting(w.me)
    ensures w.me.queue != [] && w.me.pipe.instate == InIdle && Enabled(w, DoRecv(A))
    ensures w.me.receiving ==> ReceivedEv !in w.peer.inbox
  {
    hide Conserved, Inbox;
  }

  lemma ReceivingHas(w: Ends)
    requires Inv(w) && w.me.state == Active
    ensures w.me.receiving ==> w.me.queue != []
  {
    hide Conserved, Inbox, Tokens;
  }

  /** While a message is parked, finitely many receives move it up and answer
      the sender, whatever the sizes of the messages. */
  lemma {:induction false} ReceivesRelease(w: Ends, x: End) returns (n: nat)
    requires Inv(w) && Waiting(w.me)
    ensures 1 <= n <= |w.me.queue|
    ensures Repeated(w, DoRecv(x), n).Ok?
    ensures Inv(Repeated(w, DoRecv(x), n).value) && Released(w, Repeated(w, DoRecv(x), n).value)
    decreases |w.me.queue|
  {
    hide Inv, AfterRecv, Settle, Released, MovesUp;
    WaitingCanReceive(w);
    var v := Settle(AfterRecv(w));
    if MovesUp(Popped(w)) {
      n := 1;
      ReceiveMovesUp(w);
      assert Repeated(v, DoRecv(x), 0) == Ok(v);
    } else {
      StillParked(w);
      ReceiveKeepsWaiting(w);
      var k := ReceivesRelease(v, x);
      n := k + 1;
      StillReleased(w, v, Repeated(v, DoRecv(x), k).value);
    }
  }

  lemma StillParked(w: Ends)
    requires |w.me.queue| > 0 && Waiting(w.me) && !MovesUp(Popped(w))
    ensures AfterRecv(w).me.receiving
  {
  }

  lemma StillReleased(w: Ends, v: Ends, u: Ends)
    requires Released(v, u) && v.peer == w.peer && v.me.state == w.me.state
    requires v.me.delivered + v.me.queue == w.me.delivered + w.me.queue
    ensures Released(w, u)
  {
  }

  lemma FirstInLine(w: Ends)
    requires Control(w) && w.me.state == Active && w.peer.state == Active && ReceivedEv in w.me.inbox
    ensures w.me.inbox != [] && (w.me.inbox[0] == ReceivedEv || w.me.inbox[0] == SentEv)
    ensures w.me.inbox[0] == SentEv ==> ReceivedEv in TakeOff(w.me.inbox, 0)
    ensures TakeOff(w.me.inbox, 0) == w.me.inbox[1..]
  {
  }

  lemma OneDelivery(w: Ends)
    requires Inv(w) && !Pending(w.me) && w.me.state == Active && w.peer.state == Active && ReceivedEv in w.me.inbox
    ensures w.me.inbox != [] && Deliver(w, 0, true).Ok? && Inv(Settle(Deliver(w, 0, true).value))
    ensures var v := Settle(Deliver(w, 0, true).value);
            && !Pending(v.me) && v.peer.receiving == w.peer.receiving
            && (w.me.inbox[0] == ReceivedEv ==> !v.me.sending && v.me.pipe.outstate == OutIdle && v.me.pipe.outGrant)
            && (w.me.inbox[0] != ReceivedEv ==>
                  && v.me.state == Active && v.peer.state == Active && v.me.inbox == w.me.inbox[1..]
                  && ReceivedEv in v.me.inbox)
  {
    hide Half, Conserved, TakeOff, Deliver, Settle, AfterSent, Taken;
    FirstInLine(w);
    assert Careful(w, DoDeliver(A, 0, true));
    DeliverKeeps(w, 0, true);
    SettleKeeps(Deliver(w, 0, true).value);
    if w.me.inbox[0] == SentEv {
      SentIs(w, 0);
      SentSettles(w);
    } else {
      ReceivedSettles(w);
    }
  }

  lemma SentSettles(w: Ends)
    requires w.me.inbox != []
    ensures var v := Settle(AfterSent(Taken(w, 0)));
            && v.me.inbox == TakeOff(w.me.inbox, 0) && v.me.state == w.me.state
            && v.peer.state == w.peer.state && v.peer.receiving == w.peer.receiving
  {
  }

  lemma ReceivedSettles(w: Ends)
    requires Control(w) && w.me.state == Active && w.me.inbox != [] && w.me.inbox[0] == ReceivedEv
    ensures Deliver(w, 0, true).Ok?
    ensures var v := Settle(Deliver(w, 0, true).value);
            !v.me.sending && v.me.pipe.outstate == OutIdle && v.me.pipe.outGrant && v.peer == w.peer
  {
  }

  /** Once the answer is under way, finitely many deliveries make the sender
      writable again, and its socket is told. */
  lemma {:induction false} DeliveriesRelease(w: Ends, x: End) returns (n: nat)
    requires Inv(w) && !Pending(w.me) && w.me.state == Active && w.peer.state == Active && ReceivedEv in w.me.inbox
    ensures 1 <= n <= |w.me.inbox|
    ensures Repeated(w, DoDeliver(x, 0, true), n).Ok?
    ensures var v := Repeated(w, DoDeliver(x, 0, true), n).value;
            !v.me.sending && v.me.pipe.outstate == OutIdle && v.me.pipe.outGrant && v.peer.receiving == w.peer.receiving
    decreases |w.me.inbox|
  {
    hide Inv, Deliver, Settle;
    OneDelivery(w);
    var v := Settle(Deliver(w, 0, true).value);
    if w.me.inbox[0] == ReceivedEv {
      n := 1;
      assert Repeated(v, DoDeliver(x, 0, true), 0) == Ok(v);
    } else {
      var k := DeliveriesRelease(v, x);
      n := k + 1;
    }
  }

  function Other(x: End): End
  {
    if x == A then B else A
  }

  lemma SettledWaits(w: Ends)
    requires Inv(w) && w.me.state == Active && w.me.receiving
    ensures Waiting(Settle(w).me) && Settle(w).peer == w.peer && Settle(w).me.queue == w.me.queue
  {
  }

  /** First the receives: the parked message moves up and is answered. */
  lemma ReceiverMakesRoom(p: Pair, x: End) returns (n: nat, q: Pair)
    requires Good(p) && View(p, x).me.state == Active && View(p, x).me.receiving
    ensures 1 <= n <= |View(p, x).me.queue|
    ensures Run(p, Settling(x) + Repeat(DoRecv(x), n)) == Ok(q) && Good(q)
    ensures Released(Settle(View(p, x)), View(q, x))
  {
    hide Inv, Settle, Settling, Run, Released;
    EitherView(p, x);
    var w := View(p, x);
    SettleKeeps(w);
    SettledWaits(w);
    RunSettling(p, x);
    var w1 := Settle(w);
    n := ReceivesRelease(w1, x);
    var w2 := Repeated(w1, DoRecv(x), n).value;
    var p1 := Back(w1, x);
    q := Back(w2, x);
    assert View(p1, x) == w1 && View(q, x) == w2;
    RunRepeat(p1, DoRecv(x), n, w2);
    RunConcat(p, Settling(x), Repeat(DoRecv(x), n), p1);
    EitherView(q, x);
  }

  /** Then the deliveries: the sender hears the answer. */
  lemma SenderHears(p: Pair, y: End) returns (k: nat)
    requires Good(p) && ReceivedEv in View(p, y).me.inbox
    requires View(p, y).me.state == Active && View(p, y).peer.state == Active
    ensures 1 <= k <= |View(p, y).me.inbox|
    ensures var r := Run(p, Settling(y) + Repeat(DoDeliver(y, 0, true), k));
            r.Ok? &&
            var v := View(r.value, y);
            !v.me.sending && v.me.pipe.outstate == OutIdle && v.me.pipe.outGrant
            && v.peer.receiving == View(p, y).peer.receiving
  {
    hide Inv, Settle, Settling, Deliver, Run;
    EitherView(p, y);
    var w3 := Settle(View(p, y));
    SettleKeeps(View(p, y));
    SettleLeaves(View(p, y));
    RunSettling(p, y);
    k := DeliveriesRelease(w3, y);
    var w4 := Repeated(w3, DoDeliver(y, 0, true), k).value;
    var p3 := Back(w3, y);
    assert View(p3, y) == w3 && View(Back(w4, y), y) == w4;
    RunRepeat(p3, DoDeliver(y, 0, true), k, w4);
    RunConcat(p, Settling(y), Repeat(DoDeliver(y, 0, true), k), p3);
  }

  /** A back-pressured sender is released by finitely many receives of its peer:
      once they are done and answered it is writable again. */
  lemma BackPressureEnds(p: Pair, x: End) returns (n: nat, k: nat)
    requires Reachable(p)
    requires View(p, x).me.state == Active && View(p, x).me.receiving && View(p, x).peer.state == Active
    ensures 1 <= n <= |View(p, x).me.queue|
    ensures 1 <= k <= |View(p, x).peer.inbox| + 1
    ensures var y := Other(x);
            var r := Run(p, (Settling(x) + Repeat(DoRecv(x), n)) + (Settling(y) + Repeat(DoDeliver(y, 0, true), k)));
            r.Ok? &&
            var v := View(r.value, x);
            !v.me.receiving && !v.peer.sending && v.peer.pipe.outstate == OutIdle && v.peer.pipe.outGrant
  {
    ReachableIsGood(p);
    hide Inv, Settle, Settling, Repeat, Run;
    var y := Other(x);
    SettleLeaves(View(p, x));
    var q: Pair;
    n, q := ReceiverMakesRoom(p, x);
    assert View(q, y) == Ends(View(q, x).peer, View(q, x).me);
    k := SenderHears(q, y);
    RunConcat(p, Settling(x) + Repeat(DoRecv(x), n), Settling(y) + Repeat(DoDeliver(y, 0, true), k), q);
  }

  lemma SettleLeaves(w: Ends)
    ensures Settle(w).peer == w.peer && Settle(w).me.inbox == w.me.inbox && Settle(w).me.state == w.me.state
  {
  }
}
