/** The queues of a session when threads hold some of the events in flight: no step of
    Session does anything else for it, except the test before STOPPED. */
module SessionQueues {
  import opened Outcome
  import opened Messages
  import opened Session
  import opened SessionInvariant
  import opened SessionTheorems

  // ---------- queues without the events that are held ----------

  function Rest(q: seq<Event>, h: set<Event>): seq<Event>
  {
    if q == [] then [] else (if q[0] in h then [] else [q[0]]) + Rest(q[1..], h)
  }

  lemma {:induction false} RestIn(q: seq<Event>, h: set<Event>)
    ensures forall e :: e in Rest(q, h) <==> e in q && e !in h
  {
    if q != [] {
      RestIn(q[1..], h);
      assert forall e :: e in q <==> e == q[0] || e in q[1..];
    }
  }

  lemma {:induction false} RestPush(q: seq<Event>, h: set<Event>, e: Event)
    requires e !in h
    ensures Rest(q + [e], h) == Rest(q, h) + [e]
  {
    if q != [] {
      assert (q + [e])[1..] == q[1..] + [e];
      RestPush(q[1..], h, e);
    }
  }

  /** The program's state: `h` and `g` are held for the end itself and for its peer. */
  function Seen(w: Ends, h: set<Event>, g: set<Event>): Ends
  {
    Ends(w.me.(inbox := Rest(w.me.inbox, h)), w.peer.(inbox := Rest(w.peer.inbox, g)))
  }

  /** What is held is in flight. */
  predicate InFlight(w: Ends, h: set<Event>, g: set<Event>)
  {
    (forall e | e in h :: e in w.me.inbox) && (forall e | e in g :: e in w.peer.inbox)
  }

  /** Two outcomes that differ in what is held only. */
  predicate Same(r: Result<Ends>, v: Result<Ends>, h: set<Event>, g: set<Event>)
  {
    r.Ok? && v.Ok? && v.value == Seen(r.value, h, g)
  }

  lemma RaiseToSame(w: Ends, h: set<Event>, g: set<Event>, e: Event)
    requires InFlight(w, h, g) && RaiseTo(w, e).Ok?
    ensures Same(RaiseTo(w, e), RaiseTo(Seen(w, h, g), e), h, g)
  {
    RestIn(w.peer.inbox, g);
    RestPush(w.peer.inbox, g, e);
  }

  // ---------- no operation sees the difference ----------

  lemma SendSame(w: Ends, h: set<Event>, g: set<Event>, m: Msg)
    requires InFlight(w, h, g) && PipeSend(w, m).Ok?
    ensures Same(PipeSend(w, m), PipeSend(Seen(w, h, g), m), h, g)
  {
    var w0 := SetOut(w, OutSending);
    if w0.me.state == Active && !w0.me.sending {
      var me := w0.me.(msg := Flat(m), sending := true, accepted := w0.me.accepted + [m]);
      RaiseToSame(Ends(me, w0.peer), h, g, SentEv);
      hide RaiseTo, Seen;
      assert Seen(Ends(me, w0.peer), h, g).peer == Seen(w, h, g).peer;
    }
  }

  lemma UnparkSame(w: Ends, h: set<Event>, g: set<Event>)
    requires InFlight(w, h, g) && Unpark(w).Ok?
    ensures Same(Unpark(w), Unpark(Seen(w, h, g)), h, g)
  {
    hide Full, Rest;
    if w.me.state != Disconnected && w.me.receiving && !Full(w.me.queue, w.me.maxmem, w.peer.msg) {
      TakeSame(w, h, g);
      hide TakeMailbox, InFlight;
    }
  }

  lemma TakeSame(w: Ends, h: set<Event>, g: set<Event>)
    requires InFlight(w, h, g) && TakeMailbox(w).Ok?
    ensures Same(TakeMailbox(w), TakeMailbox(Seen(w, h, g)), h, g)
  {
    hide RaiseTo, Rest;
    var u := Ends(w.me.(queue := w.me.queue + [w.peer.msg]), w.peer.(msg := EMPTY));
    RaiseToSame(u, h, g, ReceivedEv);
  }

  lemma InnerRecvSame(w: Ends, h: set<Event>, g: set<Event>)
    requires InFlight(w, h, g) && Recv(w).Ok?
    ensures Same(Recv(w), Recv(Seen(w, h, g)), h, g)
  {
    hide Unpark, Rest, Announce;
    if w.me.queue != [] {
      var u := Ends(w.me.(queue := w.me.queue[1..], delivered := w.me.delivered + [w.me.queue[0]]), w.peer);
      UnparkSame(u, h, g);
      AnnounceSame(Unpark(u).value, h, g);
    }
  }

  lemma RecvSame(w: Ends, h: set<Event>, g: set<Event>)
    requires InFlight(w, h, g) && PipeRecv(w).Ok?
    ensures Same(PipeRecv(w), PipeRecv(Seen(w, h, g)), h, g)
  {
    hide Recv, Rest, Full;
    InnerRecvSame(SetIn(w, InReceiving), h, g);
    assert Seen(SetIn(w, InReceiving), h, g) == SetIn(Seen(w, h, g), InReceiving);
  }

  lemma OnReadySame(w: Ends, h: set<Event>, g: set<Event>, added: bool)
    requires InFlight(w, h, g) && OnReady(w, added).Ok?
    ensures Same(OnReady(w, added), OnReady(Seen(w, h, g), added), h, g)
  {
    var me := w.me.(hasPeer := true, pipe := PipeStart(w.me.pipe, added).value, state := Active);
    RaiseToSame(w.(me := me), h, g, AcceptedEv);
  }

  lemma OnAcceptedSame(w: Ends, h: set<Event>, g: set<Event>, added: bool)
    requires OnAccepted(w, added).Ok?
    ensures Same(OnAccepted(w, added), OnAccepted(Seen(w, h, g), added), h, g)
  {
    RestIn(w.me.inbox, h);
  }

  /** The message taken and the pipe told, before the answer. */
  function Told(w: Ends): Result<Ends>
  {
    var w1 := Ends(w.me.(queue := w.me.queue + [w.peer.msg]), w.peer.(msg := EMPTY));
    if w.me.queue == [] then Announce(w1) else Ok(w1)
  }

  lemma OnSentIs(w: Ends)
    ensures OnSent(w) == if Full(w.me.queue, w.me.maxmem, w.peer.msg) then Ok(w.(me := w.me.(receiving := true)))
                         else if Told(w).Ok? then RaiseTo(Told(w).value, ReceivedEv)
                         else Told(w)
  {
  }

  lemma ToldSame(w: Ends, h: set<Event>, g: set<Event>)
    requires Told(w).Ok?
    ensures Same(Told(w), Told(Seen(w, h, g)), h, g)
    ensures Told(w).value.peer.inbox == w.peer.inbox && Told(w).value.me.inbox == w.me.inbox
  {
    hide Rest, Announce;
    var w1, v := Ends(w.me.(queue := w.me.queue + [w.peer.msg]), w.peer.(msg := EMPTY)), Seen(w, h, g);
    AnnounceSame(w1, h, g);
    assert Seen(w1, h, g) == Ends(v.me.(queue := v.me.queue + [v.peer.msg]), v.peer.(msg := EMPTY));
  }

  lemma OnSentSame(w: Ends, h: set<Event>, g: set<Event>)
    requires InFlight(w, h, g) && OnSent(w).Ok?
    ensures Same(OnSent(w), OnSent(Seen(w, h, g)), h, g)
  {
    hide OnSent, Told, RaiseTo, Full, Rest;
    OnSentIs(w);
    OnSentIs(Seen(w, h, g));
    if !Full(w.me.queue, w.me.maxmem, w.peer.msg) {
      ToldSame(w, h, g);
      RaiseToSame(Told(w).value, h, g, ReceivedEv);
    }
  }

  lemma AnnounceSame(w: Ends, h: set<Event>, g: set<Event>)
    ensures Announce(w).Ok? ==> Same(Announce(w), Announce(Seen(w, h, g)), h, g)
    ensures Announce(w).Ok? ==> Announce(w).value.peer == w.peer && Announce(w).value.me.inbox == w.me.inbox
  {
  }

  lemma OnDisconnectSame(w: Ends, h: set<Event>, g: set<Event>)
    requires InFlight(w, h, g) && OnDisconnect(w).Ok?
    ensures Same(OnDisconnect(w), OnDisconnect(Seen(w, h, g)), h, g)
  {
    RestIn(w.peer.inbox, g);
    RestIn(w.me.inbox, h);
    if DisconnectEv !in w.peer.inbox {
      RestPush(w.peer.inbox, g, DisconnectEv);
    }
  }

  lemma HandlerSame(w: Ends, h: set<Event>, g: set<Event>, e: Event, added: bool)
    requires InFlight(w, h, g) && Handler(w, e, added).Ok?
    ensures Same(Handler(w, e, added), Handler(Seen(w, h, g), e, added), h, g)
  {
    if w.me.state == Active {
      ActiveSame(w, h, g, e, added);
    } else {
      HandshakeSame(w, h, g, e, added);
    }
    hide Handler;
  }

  lemma HandshakeSame(w: Ends, h: set<Event>, g: set<Event>, e: Event, added: bool)
    requires InFlight(w, h, g) && Handler(w, e, added).Ok? && w.me.state != Active
    ensures Same(Handler(w, e, added), Handler(Seen(w, h, g), e, added), h, g)
  {
    hide OnReady, OnAccepted, OnSent, OnDisconnect, OnReceived, Rest, PipeStart;
    if w.me.state == Connecting {
      OnReadySame(w, h, g, added);
    } else if w.me.state == Ready && e == AcceptedEv {
      OnAcceptedSame(w, h, g, added);
    }
  }

  lemma ActiveSame(w: Ends, h: set<Event>, g: set<Event>, e: Event, added: bool)
    requires InFlight(w, h, g) && Handler(w, e, added).Ok? && w.me.state == Active
    ensures Same(Handler(w, e, added), Handler(Seen(w, h, g), e, added), h, g)
  {
    hide OnReady, OnAccepted, OnSent, OnDisconnect, OnReceived, Rest, PipeStart;
    if e == SentEv {
      OnSentSame(w, h, g);
    } else if e == ReceivedEv {
      OnReceivedSame(w, h, g);
    } else if e == DisconnectEv {
      OnDisconnectSame(w, h, g);
    }
  }

  lemma OnReceivedSame(w: Ends, h: set<Event>, g: set<Event>)
    requires OnReceived(w).Ok?
    ensures Same(OnReceived(w), OnReceived(Seen(w, h, g)), h, g)
  {
    hide Rest;
  }

  lemma ShutdownEventsSame(w: Ends, h: set<Event>, g: set<Event>, c: Cause)
    requires InFlight(w, h, g) && ShutdownEvents(w, c).Ok?
    ensures Same(ShutdownEvents(w, c), ShutdownEvents(Seen(w, h, g), c), h, g)
    ensures ShutdownEvents(w, c).value.me.inbox == w.me.inbox
  {
    hide RaiseTo, Rest;
    if c == StopAction && w.me.state != Idle && w.me.state != Disconnected {
      var u := w.(me := w.me.(pipe := PipeStop(w.me.pipe)));
      RaiseToSame(u, h, g, DisconnectEv);
      RaiseToLeaves(u, DisconnectEv);
    }
  }

  lemma RaiseToLeaves(w: Ends, e: Event)
    ensures RaiseTo(w, e).Ok? ==> RaiseTo(w, e).value.me == w.me && w.peer.inbox <= RaiseTo(w, e).value.peer.inbox
  {
  }

  /** The check before STOPPED sees no RECEIVED that is held. */
  lemma ShutdownSame(w: Ends, h: set<Event>, g: set<Event>, c: Cause)
    requires InFlight(w, h, g) && Shutdown(w, c).Ok?
    requires Shutdown(w, c).value.me.state == Stopping ==> ReceivedEv !in h && DisconnectEv !in h
    ensures Same(Shutdown(w, c), Shutdown(Seen(w, h, g), c), h, g)
  {
    ShutdownEventsSame(w, h, g, c);
    var w1 := ShutdownEvents(w, c).value;
    hide ShutdownEvents;
    RestIn(w1.me.inbox, h);
    RestIn(w1.peer.inbox, g);
  }

  /** What a context does with an event. */
  function Process(w: Ends, e: Event, added: bool): Result<Ends>
  {
    if w.me.fsm == FsmStopping then Shutdown(w, FromPeer(e)) else Handler(w, e, added)
  }

  /** A stop that may report STOPPED while a thread holds a RECEIVED. */
  predicate HoldsBack(w: Ends, s: Step, h: set<Event>)
  {
    ReceivedEv in h &&
    match s
    case DoStop(_) => w.me.state == Disconnected
    case DoDeliver(_, k, _) => k < |w.me.inbox| && w.me.state == StoppingPeer && w.me.inbox[k] == DisconnectEv
    case _ => false
  }

  // ---------- what is taken off ----------

  lemma {:induction false} RestAll(q: seq<Event>)
    ensures Rest(q, {}) == q
  {
    if q != [] {
      RestAll(q[1..]);
    }
  }

  /** A held event that is taken out of what is in flight. */
  lemma {:induction false} RestTakeOff(q: seq<Event>, k: nat, h: set<Event>)
    requires k < |q| && q[k] in h && q[k] !in q[..k] && q[k] !in q[k + 1..]
    ensures Rest(TakeOff(q, k), h - {q[k]}) == Rest(q, h)
  {
    if k == 0 {
      assert TakeOff(q, k) == q[1..];
      RestWithout(q[1..], h, q[0]);
    } else {
      assert q[1..][k - 1] == q[k] && q[1..][..k - 1] == q[..k][1..] && q[1..][k..] == q[k + 1..];
      assert q[0] == q[..k][0] && q[0] in q[..k];
      RestTakeOff(q[1..], k - 1, h);
      assert TakeOff(q, k)[1..] == TakeOff(q[1..], k - 1) && TakeOff(q, k)[0] == q[0];
    }
  }

  lemma {:induction false} RestWithout(q: seq<Event>, h: set<Event>, e: Event)
    requires e !in q
    ensures Rest(q, h - {e}) == Rest(q, h)
  {
    if q != [] {
      assert q[0] in q;
      RestWithout(q[1..], h, e);
    }
  }

  lemma TakenIs(w: Ends, h: set<Event>, g: set<Event>, k: nat)
    requires Tidy(w.me.inbox) && InFlight(w, h, g) && k < |w.me.inbox| && w.me.inbox[k] in h
    ensures Seen(Taken(w, k), h - {w.me.inbox[k]}, g) == Seen(w, h, g)
    ensures InFlight(Taken(w, k), h - {w.me.inbox[k]}, g)
  {
    Pop(w.me.inbox, k);
    RestTakeOff(w.me.inbox, k, h);
    hide Rest, TakeOff;
  }

  /** Entering with a held event is its delivery. */
  lemma EnterSame(w: Ends, h: set<Event>, g: set<Event>, k: nat, added: bool)
    requires Tidy(w.me.inbox) && InFlight(w, h, g) && k < |w.me.inbox| && w.me.inbox[k] in h
    requires Deliver(w, k, added).Ok?
    requires Deliver(w, k, added).value.me.state == Stopping ==>
               ReceivedEv !in h - {w.me.inbox[k]} && DisconnectEv !in h - {w.me.inbox[k]}
    ensures Same(Deliver(w, k, added), Process(Seen(w, h, g), w.me.inbox[k], added), h - {w.me.inbox[k]}, g)
    ensures InFlight(Deliver(w, k, added).value, h - {w.me.inbox[k]}, g)
  {
    hide Tidy, Shutdown, Handler, Rest, TakeOff, InFlight, Same;
    var e := w.me.inbox[k];
    TakenIs(w, h, g, k);
    DeliverGrows(w, k, added);
    StillInFlight(Taken(w, k), h - {e}, g, Deliver(w, k, added));
    if w.me.fsm == FsmStopping {
      ShutdownSame(Taken(w, k), h - {e}, g, FromPeer(e));
    } else {
      HandlerSame(Taken(w, k), h - {e}, g, e, added);
    }
  }

  /** A step only adds to the queue of the peer. */
  predicate Grows(w: Ends, r: Result<Ends>)
  {
    r.Ok? ==> r.value.me.inbox == w.me.inbox && w.peer.inbox <= r.value.peer.inbox
  }

  lemma SendGrows(w: Ends, m: Msg)
    ensures Grows(w, PipeSend(w, m))
  {
  }

  lemma RecvGrows(w: Ends)
    ensures Grows(w, PipeRecv(w))
  {
    hide Recv;
    if w.me.pipe.instate == InIdle {
      InnerRecvGrows(SetIn(w, InReceiving));
    }
  }

  lemma InnerRecvGrows(w: Ends)
    ensures Grows(w, Recv(w))
  {
    if w.me.queue != [] {
      UnparkGrows(Ends(w.me.(queue := w.me.queue[1..], delivered := w.me.delivered + [w.me.queue[0]]), w.peer));
    }
    hide Unpark;
  }

  lemma UnparkGrows(w: Ends)
    ensures Grows(w, Unpark(w))
  {
    hide Full;
  }

  lemma HandlerGrows(w: Ends, e: Event, added: bool)
    ensures Grows(w, Handler(w, e, added))
  {
    hide OnSent, OnReady, OnReceived, OnDisconnect, PipeStart, Full;
    match w.me.state
    case Connecting => OnReadyGrows(w, added);
    case Active =>
      SentGrows(w);
      OnReceivedGrows(w);
      OnDisconnectGrows(w);
    case _ =>
  }

  lemma OnReadyGrows(w: Ends, added: bool)
    ensures Grows(w, OnReady(w, added))
  {
  }

  lemma OnReceivedGrows(w: Ends)
    ensures Grows(w, OnReceived(w))
  {
  }

  lemma OnDisconnectGrows(w: Ends)
    ensures Grows(w, OnDisconnect(w))
  {
  }

  lemma SentGrows(w: Ends)
    ensures Grows(w, OnSent(w))
  {
    hide Full, Announce, RaiseTo;
    var w1 := Ends(w.me.(queue := w.me.queue + [w.peer.msg]), w.peer.(msg := EMPTY));
    AnnounceSame(w1, {}, {});
    RaiseToLeaves(if Announce(w1).Ok? && w.me.queue == [] then Announce(w1).value else w1, ReceivedEv);
  }

  lemma ShutdownGrows(w: Ends, c: Cause)
    ensures Grows(w, Shutdown(w, c))
  {
    ShutdownEventsGrows(w, c);
    hide ShutdownEvents;
  }

  lemma ShutdownEventsGrows(w: Ends, c: Cause)
    ensures Grows(w, ShutdownEvents(w, c))
  {
    hide RaiseTo;
    RaiseToLeaves(w.(me := w.me.(pipe := PipeStop(w.me.pipe))), DisconnectEv);
  }

  lemma DeliverGrows(w: Ends, k: nat, added: bool)
    requires k < |w.me.inbox|
    ensures Grows(Taken(w, k), Deliver(w, k, added))
  {
    hide Shutdown, Handler, TakeOff;
    ShutdownGrows(Taken(w, k), FromPeer(w.me.inbox[k]));
    HandlerGrows(Taken(w, k), w.me.inbox[k], added);
  }

  lemma CallGrows(w: Ends, s: Step)
    requires Enabled(w, s) && !s.DoDeliver?
    ensures Grows(w, Apply(w, s))
  {
    hide PipeSend, PipeRecv, Shutdown;
    match s
    case DoSend(_, m) => SendGrows(w, m);
    case DoRecv(_) => RecvGrows(w);
    case DoStop(_) => ShutdownGrows(w.(me := w.me.(fsm := FsmStopping)), StopAction);
    case _ =>
  }

  lemma StillInFlight(w: Ends, h: set<Event>, g: set<Event>, r: Result<Ends>)
    requires InFlight(w, h, g) && Grows(w, r)
    ensures r.Ok? ==> InFlight(r.value, h, g)
  {
  }

  /** Any other step does the same with and without the events that are held. */
  lemma CallSame(w: Ends, h: set<Event>, g: set<Event>, s: Step)
    requires InFlight(w, h, g) && !s.DoDeliver? && Enabled(w, s) && Apply(w, s).Ok?
    requires s.DoStop? && Apply(w, s).value.me.state == Stopping && w.me.fsm == FsmActive ==>
               ReceivedEv !in h && DisconnectEv !in h
    ensures Enabled(Seen(w, h, g), s) && Same(Apply(w, s), Apply(Seen(w, h, g), s), h, g)
    ensures InFlight(Apply(w, s).value, h, g)
  {
    CallGrows(w, s);
    StillInFlight(w, h, g, Apply(w, s));
    hide PipeSend, PipeRecv, Stop, Rest, Deliver;
    match s
    case DoSend(_, m) => SendSame(w, h, g, m);
    case DoRecv(_) => RecvSame(w, h, g);
    case DoStop(_) => StopSame(w, h, g);
    case _ =>
  }

  lemma StopSame(w: Ends, h: set<Event>, g: set<Event>)
    requires InFlight(w, h, g) && Stop(w).Ok?
    requires Stop(w).value.me.state == Stopping && w.me.fsm == FsmActive ==> ReceivedEv !in h && DisconnectEv !in h
    ensures Same(Stop(w), Stop(Seen(w, h, g)), h, g)
  {
    hide Shutdown, Rest;
    if w.me.fsm == FsmActive {
      var u := w.(me := w.me.(fsm := FsmStopping));
      ShutdownSame(u, h, g, StopAction);
      assert Seen(u, h, g) == Seen(w, h, g).(me := Seen(w, h, g).me.(fsm := FsmStopping));
    }
  }

  /** A stop of an active or handshaking session never reports at once. */
  lemma StopHoldsNothing(w: Ends, s: Step, h: set<Event>, g: set<Event>)
    requires Control(w) && InFlight(w, h, g) && s.DoStop? && Enabled(w, s) && Apply(w, s).Ok? && !HoldsBack(w, s, h)
    ensures Apply(w, s).value.me.state == Stopping && w.me.fsm == FsmActive ==>
              ReceivedEv !in h && DisconnectEv !in h
  {
  }

  lemma DeliveryHoldsNothing(w: Ends, k: nat, added: bool, h: set<Event>, g: set<Event>, x: End)
    requires Control(w) && InFlight(w, h, g) && k < |w.me.inbox| && Deliver(w, k, added).Ok?
    requires !HoldsBack(w, DoDeliver(x, k, added), h)
    ensures Deliver(w, k, added).value.me.state == Stopping ==>
              ReceivedEv !in h - {w.me.inbox[k]} && DisconnectEv !in h - {w.me.inbox[k]}
  {
    hide Deliver, HoldsBack;
    if Deliver(w, k, added).value.me.state == Stopping {
      DeliverStops(w, k, added);
      HeardInbox(w);
      hide Control, InFlight, Pending;
      if w.me.state == StoppingPeer {
        assert ReceivedEv !in h by { BackIs(w, k, added, h, x); }
      } else {
        assert w.me.inbox[k] in w.me.inbox && forall e | e in h :: e in w.me.inbox by { HeldIn(w, h, g); }
      }
    }
  }

  lemma HeldIn(w: Ends, h: set<Event>, g: set<Event>)
    requires InFlight(w, h, g)
    ensures forall e | e in h :: e in w.me.inbox
  {
  }

  lemma BackIs(w: Ends, k: nat, added: bool, h: set<Event>, x: End)
    requires k < |w.me.inbox| && w.me.state == StoppingPeer && w.me.inbox[k] == DisconnectEv
    ensures HoldsBack(w, DoDeliver(x, k, added), h) <==> ReceivedEv in h
  {
  }

  /** Which deliveries may report. */
  lemma DeliverStops(w: Ends, k: nat, added: bool)
    requires k < |w.me.inbox| && Deliver(w, k, added).Ok? && Deliver(w, k, added).value.me.state == Stopping
    ensures w.me.state == Stopping || (w.me.state == StoppingPeer && w.me.inbox[k] == DisconnectEv)
  {
    hide TakeOff, Full, RaiseTo, PipeStart, PipeSent, Announce, RaiseOwn;
    HandlerStops(Taken(w, k), w.me.inbox[k], added);
    hide Handler;
  }

  lemma HandlerStops(w: Ends, e: Event, added: bool)
    ensures Handler(w, e, added).Ok? && Handler(w, e, added).value.me.state == Stopping ==> w.me.state == Stopping
  {
    hide PipeStart, PipeSent, OnSent;
    SentKeepsState(w);
  }

  lemma SentKeepsState(w: Ends)
    ensures OnSent(w).Ok? ==> OnSent(w).value.me.state == w.me.state
  {
    hide Full;
  }

  lemma HeardInbox(w: Ends)
    requires Control(w)
    ensures w.me.state == Stopping ==> w.me.inbox == [] || w.me.inbox == [ReceivedEv]
  {
    hide PipeMirrors, Tokens, Tidy;
  }

  lemma SameEnabled(w: Ends, h: set<Event>, g: set<Event>, s: Step)
    ensures !s.DoDeliver? ==> (Enabled(Seen(w, h, g), s) <==> Enabled(w, s))
    ensures Pending(Seen(w, h, g).me) <==> Pending(w.me)
  {
  }

  lemma InvIs(w: Ends)
    requires Inv(w)
    ensures Control(w) && Tidy(w.me.inbox)
  {
  }
}
