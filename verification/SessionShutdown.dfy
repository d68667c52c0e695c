/** Stopping one or both ends: what a stop reports, what it needs from its
    callers, and what goes wrong without it. */
module SessionShutdown {
  import opened Outcome
  import opened Messages
  import opened Session
  import opened SessionInvariant
  import opened SessionTheorems
  import Q = SessionQueues

  // ---------- STOPPED is final ----------

  /** A session that reported STOPPED: none of its event objects is queued. */
  lemma StoppedIsQuiet(p: Pair, x: End)
    requires Reachable(p) && View(p, x).me.stopped > 0
    ensures var w := View(p, x);
            && w.me.stopped == 1 && w.me.fsm == FsmIdle && w.me.state == Stopping
            && w.me.inbox == [] && !w.me.told
            && ReadyEv !in w.peer.inbox && AcceptedEv !in w.peer.inbox
  {
    ReachableIsGood(p);
    EitherView(p, x);
  }

  // ---------- past the last event ----------

  /** What is left to happen to an end that has heard the last word: a RECEIVED that
      was passed arrives, and STOPPED is reported then. */
  predicate NothingNew(m: Node, n: Node)
  {
    && n.state == m.state && n.msg == m.msg
    && ((n.inbox == m.inbox && n.fsm == m.fsm && n.stopped == m.stopped)
        || (m.inbox == [ReceivedEv] && m.fsm == FsmStopping && n.inbox == [] && n.fsm == FsmIdle && n.stopped == 1))
  }

  lemma OwnStepLeaves(w: Ends, s: Step)
    requires Inv(w) && w.me.state == Stopping && Enabled(w, s) && Careful(w, s)
    ensures Apply(w, s).Ok? && NothingNew(w.me, Apply(w, s).value.me)
  {
    hide PipeSend, PipeRecv, Deliver, Stop, NothingNew;
    match s
    case DoDeliver(_, k, added) =>
      LateReceivedIs(w, k);
      NothingMore(w, k);
      AddedMatters(w, k, added);
    case DoStop(_) => OwnStop(w);
    case _ => OwnDrain(w, s);
  }

  lemma NothingMore(w: Ends, k: nat)
    requires Inv(w) && w.me.state == Stopping && k < |w.me.inbox| && w.me.inbox == [ReceivedEv]
    requires Taken(w, k).me.inbox == []
    ensures NothingNew(w.me, Reporting(Taken(w, k)).me)
  {
    hide Conserved, PipeMirrors, Tokens;
  }

  lemma AddedMatters(w: Ends, k: nat, added: bool)
    requires k < |w.me.inbox| && w.me.state == Stopping
    ensures Deliver(w, k, added) == Deliver(w, k, true)
  {
  }

  lemma OwnStop(w: Ends)
    requires Inv(w) && w.me.state == Stopping
    ensures Stop(w) == Ok(w) && NothingNew(w.me, w.me)
  {
    hide Conserved, PipeMirrors, Tokens;
  }

  lemma OwnDrain(w: Ends, s: Step)
    requires Inv(w) && w.me.state == Stopping && Enabled(w, s) && !s.DoDeliver? && !s.DoStop?
    ensures Apply(w, s).Ok? && NothingNew(w.me, Apply(w, s).value.me)
  {
    hide Conserved, PipeMirrors, Tokens, PipeSend, PipeRecv;
  }

  lemma HeardAll(w: Ends)
    requires Inv(w) && w.peer.state == Stopping
    ensures Gone(w.me) && (w.me.fsm == FsmActive ==> w.me.state == Disconnected)
  {
  }

  /** An end on its way out reaches its peer no more. */
  lemma GoneLeavesPeer(w: Ends, s: Step)
    requires Gone(w.me) && Enabled(w, s) && Apply(w, s).Ok? && (w.me.fsm == FsmActive ==> w.me.state == Disconnected)
    ensures Apply(w, s).value.peer == w.peer
  {
    hide PipeSend, PipeRecv, Deliver, Stop;
    match s
    case DoRecv(_) => GoneReceives(w);
    case DoDeliver(_, k, added) => GoneIgnores(w, k, added);
    case DoStop(_) => GoneStops(w);
    case _ =>
  }

  lemma GoneReceives(w: Ends)
    requires w.me.state == Disconnected
    ensures PipeRecv(w).Ok? ==> PipeRecv(w).value.peer == w.peer
  {
    hide PipeReceived;
  }

  lemma GoneIgnores(w: Ends, k: nat, added: bool)
    requires Gone(w.me) && k < |w.me.inbox| && (w.me.fsm == FsmActive ==> w.me.state == Disconnected)
    ensures Deliver(w, k, added).Ok? ==> Deliver(w, k, added).value.peer == w.peer
  {
    hide TakeOff, OnSent, OnReceived, OnDisconnect, OnReady, OnAccepted, PipeStart, RaiseTo, Full;
  }

  lemma GoneStops(w: Ends)
    requires w.me.fsm == FsmActive ==> w.me.state == Disconnected
    ensures Stop(w).Ok? ==> Stop(w).value.peer == w.peer
  {
    hide RaiseTo;
  }

  lemma PeerStepLeaves(w: Ends, s: Step)
    requires Inv(w) && w.peer.state == Stopping && Enabled(w, s) && Careful(w, s)
    ensures Apply(w, s).Ok? && Apply(w, s).value.peer == w.peer
  {
    hide Inv, Apply, Enabled, Careful;
    StepKeeps(w, s);
    HeardAll(w);
    GoneLeavesPeer(w, s);
  }

  /** Once an end has heard the last word, no later step of either end raises
      anything to it, moves its mailbox or makes it report twice. */
  lemma {:induction false} PastLastEvent(p: Pair, x: End, steps: seq<Step>)
    requires Good(p) && View(p, x).me.state == Stopping && CarefulRun(p, steps)
    ensures Run(p, steps).Ok? && Good(Run(p, steps).value)
    ensures NothingNew(View(p, x).me, View(Run(p, steps).value, x).me)
    decreases |steps|
  {
    hide Inv, Enabled, Careful, Apply;
    if steps != [] {
      var y := steps[0].x;
      var w := View(p, y);
      if Enabled(w, steps[0]) {
        StepIsGood(p, steps[0]);
        EitherView(p, y);
        if x == y { OwnStepLeaves(w, steps[0]); } else { PeerStepLeaves(w, steps[0]); }
        var q := Back(Apply(w, steps[0]).value, y);
        assert NothingNew(View(p, x).me, View(q, x).me);
        PastLastEvent(q, x, steps[1..]);
      } else {
        PastLastEvent(p, x, steps[1..]);
      }
    }
  }

  /** After STOPPED the peer never raises an event to the session again. */
  lemma StoppedStaysQuiet(p: Pair, x: End, steps: seq<Step>)
    requires Reachable(p) && View(p, x).me.stopped > 0 && CarefulRun(p, steps)
    ensures Run(p, steps).Ok?
    ensures var n := View(Run(p, steps).value, x).me;
            n.inbox == [] && n.stopped == 1 && n.msg == View(p, x).me.msg
  {
    ReachableIsGood(p);
    StoppedIsQuiet(p, x);
    PastLastEvent(p, x, steps);
  }

  // ---------- every stop is answered ----------

  /** Everything in flight to one end is delivered. */
  lemma {:induction false} DrainInbox(w: Ends, x: End) returns (v: Ends)
    requires Inv(w) && !Pending(w.me)
    ensures Repeated(w, DoDeliver(x, 0, true), |w.me.inbox|) == Ok(v)
    ensures Inv(v) && !Pending(v.me) && v.me.inbox == []
    ensures v.peer.state == w.peer.state
    ensures w.me.state == StoppingPeer || w.me.state == Stopping ==>
              v.me.state == StoppingPeer || v.me.state == Stopping
    ensures w.me.state == Stopping ==> v.me.state == Stopping
    decreases |w.me.inbox|
  {
    hide Half, Conserved, Settle, Deliver;
    if w.me.inbox == [] {
      v := w;
    } else {
      OneLess(w);
      v := DrainInbox(Settle(Deliver(w, 0, true).value), x);
    }
  }

  lemma OneLess(w: Ends)
    requires Inv(w) && !Pending(w.me) && w.me.inbox != []
    ensures Deliver(w, 0, true).Ok?
    ensures var v := Settle(Deliver(w, 0, true).value);
            && Inv(v) && !Pending(v.me) && v.me.inbox == w.me.inbox[1..] && v.peer.state == w.peer.state
            && (w.me.state == StoppingPeer ==> v.me.state == StoppingPeer || v.me.state == Stopping)
            && (w.me.state == Stopping ==> v.me.state == Stopping)
  {
    hide Half, Conserved, Settle;
    DeliverKeeps(w, 0, true);
    var u := Deliver(w, 0, true).value;
    SettleKeeps(u);
    SettleLeaves(u);
    PeerFrame(w, DoDeliver(A, 0, true));
    assert TakeOff(w.me.inbox, 0) == w.me.inbox[1..];
    LeavingStays(w);
  }

  lemma LeavingStays(w: Ends)
    requires Control(w) && w.me.inbox != [] && Deliver(w, 0, true).Ok?
    ensures var v := Deliver(w, 0, true).value.me;
            && v.inbox == TakeOff(w.me.inbox, 0)
            && (w.me.state == StoppingPeer ==> v.state == StoppingPeer || v.state == Stopping)
            && (w.me.state == Stopping ==> v.state == Stopping)
  {
    hide Handler, Shutdown, TakeOff;
    var e := w.me.inbox[0];
    if w.me.fsm == FsmStopping {
      ShutdownStays(Taken(w, 0), e);
    } else {
      Q.HandlerGrows(Taken(w, 0), e, true);
    }
  }

  lemma ShutdownStays(w: Ends, e: Event)
    ensures var r := Shutdown(w, FromPeer(e));
            r.Ok? ==>
              && r.value.me.inbox == w.me.inbox
              && (w.me.state == StoppingPeer ==> r.value.me.state == StoppingPeer || r.value.me.state == Stopping)
              && (w.me.state == Stopping ==> r.value.me.state == Stopping)
  {
  }

  /** Deliver what is in flight to the peer, then what is in flight back: every end
      that was told to stop has then reported STOPPED, once. */
  function Answering(x: End, n: nat, k: nat): seq<Step>
  {
    Settling(Other(x)) + Repeat(DoDeliver(Other(x), 0, true), n) + (Settling(x) + Repeat(DoDeliver(x, 0, true), k))
  }

  lemma DrainAll(p: Pair, x: End) returns (n: nat, w: Ends)
    requires Good(p)
    ensures w.me.inbox == [] && Good(Back(w, x)) && w.peer.state == View(p, x).peer.state
    ensures Run(p, Settling(x) + Repeat(DoDeliver(x, 0, true), n)) == Ok(Back(w, x))
    ensures var m := View(p, x).me.state;
            && (m == StoppingPeer || m == Stopping ==> w.me.state == StoppingPeer || w.me.state == Stopping)
            && (m == Stopping ==> w.me.state == Stopping)
  {
    hide Inv, Settle, Deliver, Run;
    EitherView(p, x);
    var w0 := View(p, x);
    SettleKeeps(w0);
    SettleLeaves(w0);
    RunSettling(p, x);
    var w1 := Settle(w0);
    n := |w1.me.inbox|;
    w := DrainInbox(w1, x);
    var p1 := Back(w1, x);
    assert View(p1, x) == w1 && View(Back(w, x), x) == w;
    RunRepeat(p1, DoDeliver(x, 0, true), n, w);
    RunConcat(p, Settling(x), Repeat(DoDeliver(x, 0, true), n), p1);
    EitherView(Back(w, x), x);
  }

  lemma StopCompletes(p: Pair, x: End) returns (n: nat, k: nat)
    requires Reachable(p) && View(p, x).me.fsm == FsmStopping
    ensures var r := Run(p, Answering(x, n, k)); r.Ok? && View(r.value, x).me.stopped == 1
  {
    ReachableIsGood(p);
    var y := Other(x);
    EitherView(p, x);
    assert View(p, x).me.state == StoppingPeer || View(p, x).me.state == Stopping by { OnItsWay(View(p, x)); }
    hide Inv, Run, Settling, Repeat;
    assert View(p, y).peer == View(p, x).me;
    var w1, w2;
    n, w1 := DrainAll(p, y);
    var p1 := Back(w1, y);
    assert View(p1, y) == w1 && View(p1, x) == Ends(w1.peer, w1.me);
    k, w2 := DrainAll(p1, x);
    assert View(Back(w2, x), x) == w2;
    hide View, Back;
    RunConcat(p, Settling(y) + Repeat(DoDeliver(y, 0, true), n), Settling(x) + Repeat(DoDeliver(x, 0, true), k), p1);
    EitherView(p1, y);
    EitherView(Back(w2, x), x);
    HandshakeOver(w1, w2);
  }

  lemma OnItsWay(w: Ends)
    requires Inv(w) && w.me.fsm == FsmStopping
    ensures w.me.state == StoppingPeer || w.me.state == Stopping
  {
  }

  /** With both inboxes drained, a stopping end has heard from its peer. */
  lemma HandshakeOver(w1: Ends, w2: Ends)
    requires Inv(w1) && Inv(w2) && w1.me.inbox == [] && (w1.peer.state == StoppingPeer || w1.peer.state == Stopping)
    requires w2.me.inbox == [] && w2.peer.state == w1.me.state
    requires w2.me.state == StoppingPeer || w2.me.state == Stopping
    ensures w2.me.stopped == 1
  {
  }

  /** Whatever the schedule: once nothing is in flight, every end that was told to stop has
      reported STOPPED. */
  lemma NothingInFlight(p: Pair, x: End)
    requires Reachable(p) && p.a.inbox == [] && p.b.inbox == []
    ensures View(p, x).me.fsm != FsmStopping
    ensures Gone(View(p, x).me) && View(p, x).me.state != Disconnected ==> View(p, x).me.stopped == 1
  {
    ReachableIsGood(p);
    EitherView(p, x);
  }

  /** A stop of a disconnected session reports STOPPED at once, or, if DISCONNECT has
      passed a RECEIVED, as soon as that arrives. */
  lemma DisconnectedStopReports(p: Pair, x: End)
    requires Reachable(p) && View(p, x).me.state == Disconnected && Enabled(View(p, x), DoStop(x))
    ensures |View(p, x).me.inbox| <= 1
    ensures var r := Run(p, [DoStop(x)] + Repeat(DoDeliver(x, 0, true), |View(p, x).me.inbox|));
            r.Ok? && View(r.value, x).me.stopped == 1
  {
    hide Inv, Stop, Deliver, Run, Repeated, Settle;
    ReachableIsGood(p);
    EitherView(p, x);
    var w := View(p, x);
    var k := |w.me.inbox|;
    DisconnectedStop(w);
    var v := AfterStopDisconnected(w);
    var q := Back(v, x);
    assert View(q, x) == v;
    RunFirst(p, DoStop(x), Repeat(DoDeliver(x, 0, true), k));
    var u := DrainInbox(v, x);
    RunRepeat(q, DoDeliver(x, 0, true), k, u);
    assert View(Back(u, x), x) == u;
    StoppedOnceQuiet(u);
  }

  lemma DisconnectedStop(w: Ends)
    requires Inv(w) && w.me.state == Disconnected && !Pending(w.me)
    ensures |w.me.inbox| <= 1 && Stop(w) == Ok(AfterStopDisconnected(w)) && Inv(AfterStopDisconnected(w))
    ensures !Pending(AfterStopDisconnected(w).me)
  {
    StopDisconnectedIs(w);
    StopDisconnectedKeeps(w);
  }

  lemma StoppedOnceQuiet(w: Ends)
    requires Inv(w) && w.me.state == Stopping && w.me.inbox == []
    ensures w.me.stopped == 1
  {
  }
}
