/** What every careful run of a paired session keeps. */
module SessionInvariant {
  import opened Outcome
  import opened Messages
  import opened Session

  // ---------- the invariant ----------

  /** No event object twice; DISCONNECT is the last word, the handshake the first. */
  ghost predicate Tidy(q: seq<Event>)
  {
    && (forall i, j | 0 <= i < j < |q| :: q[i] != q[j])
    && (forall i | 0 <= i < |q| - 1 :: q[i] != DisconnectEv)
    && (forall i | 1 <= i < |q| :: q[i] != ReadyEv && q[i] != AcceptedEv)
  }

  /** x has told its peer that it goes away. */
  predicate Gone(x: Node)
  {
    x.state == StoppingPeer || x.state == Disconnected || x.state == Stopping
  }

  /** x has heard that its peer goes away. */
  predicate Heard(x: Node)
  {
    x.state == Disconnected || x.state == Stopping
  }

  predicate Handshaking(x: Node)
  {
    x.state == Connecting || x.state == Ready
  }

  ghost predicate Lifecycle(x: Node)
  {
    && x.state != Idle
    && (x.fsm == FsmActive <==> Handshaking(x) || x.state == Active || x.state == Disconnected)
    && (x.fsm == FsmIdle ==> x.state == Stopping)
    && x.stopped == (if x.fsm == FsmIdle then 1 else 0)
    && (x.told ==> x.state == Disconnected)
    && (x.state == Stopping ==> (x.fsm == FsmIdle <==> x.inbox == []))
    && (x.state == Ready || x.state == Active ==> x.hasPeer)
    && (x.state == Connecting ==> !x.hasPeer)
    && (x.pipe.state == PActive <==> x.state == Active)
    && (Handshaking(x) ==> x.pipe == FRESH_PIPE && x.queue == [] && !x.sending && !x.receiving)
  }

  /** The in side mirrors the queue, the out side mirrors SENDING. */
  ghost predicate PipeMirrors(x: Node)
  {
    && (x.state == Active || x.state == Disconnected ==>
          && x.pipe.instate == (if x.queue == [] then InAsync else InIdle)
          && (x.pipe.inQueued || x.pipe.inGrant <==> x.queue != [])
          && !(x.pipe.inQueued && x.pipe.inGrant))
    && (x.state == Active ==>
          && x.pipe.outstate == (if x.sending then OutAsync else OutIdle)
          && (x.pipe.outQueued || x.pipe.outGrant <==> !x.sending)
          && !(x.pipe.outQueued && x.pipe.outGrant)
          && (x.receiving ==> x.queue != []))
  }

  /** Where the message of x that is not yet acknowledged can be: announced to
      the peer, parked for a full peer, or taken and the answer under way. */
  predicate Announced(x: Node, y: Node) { SentEv in y.inbox }
  predicate Parked(x: Node, y: Node) { y.receiving }
  predicate Answered(x: Node, y: Node) { ReceivedEv in x.inbox }

  predicate ExactlyOne(a: bool, b: bool, c: bool)
  {
    (a || b || c) && !(a && b) && !(a && c) && !(b && c)
  }

  predicate InMailbox(x: Node, y: Node)
  {
    Announced(x, y) || Parked(x, y)
  }

  ghost predicate Tokens(x: Node, y: Node)
  {
    && !(Announced(x, y) && Parked(x, y)) && !(InMailbox(x, y) && Answered(x, y))
    && (InMailbox(x, y) || Answered(x, y) ==> x.sending)
    && (x.sending && x.state == Active && (y.state == Active || Handshaking(y)) ==>
          InMailbox(x, y) || Answered(x, y))
  }

  function Mailbox(x: Node, y: Node): seq<Msg>
  {
    if InMailbox(x, y) then [x.msg] else []
  }

  /** What has left x towards y, wherever it is now. */
  function OnTheWay(x: Node, y: Node): seq<Msg>
  {
    y.delivered + y.queue + Mailbox(x, y)
  }

  ghost predicate Conserved(x: Node, y: Node)
  {
    && OnTheWay(x, y) <= Carried(x.accepted)
    && (!x.sending || InMailbox(x, y) || Answered(x, y) ==> OnTheWay(x, y) == Carried(x.accepted))
  }

  /** Who may raise what to x, given how far both ends are. */
  ghost predicate Inbox(x: Node, y: Node)
  {
    && Tidy(x.inbox)
    && (DisconnectEv in x.inbox <==> Gone(y) && !Heard(x))
    && (Heard(x) ==> Gone(y) && (x.inbox == [] || x.inbox == [ReceivedEv]))
    && (ReadyEv in x.inbox <==> x.state == Connecting)
    && (AcceptedEv in x.inbox <==> x.state == Ready && y.state != Connecting)
    && (x.state == Connecting ==> y.state == Ready && x.inbox == [ReadyEv] && y.inbox == [])
    && (x.state == Ready && y.state != Connecting ==> y.inbox == [])
    && (x.connector ==> x.state != Ready)
    && (!x.connector ==> x.state != Connecting)
  }

  ghost predicate Half(x: Node, y: Node)
  {
    Lifecycle(x) && PipeMirrors(x) && Tokens(x, y) && Inbox(x, y)
  }

  ghost predicate Control(w: Ends)
  {
    w.me.connector != w.peer.connector && Half(w.me, w.peer) && Half(w.peer, w.me)
  }

  ghost predicate Inv(w: Ends)
  {
    Control(w) && Conserved(w.me, w.peer) && Conserved(w.peer, w.me)
  }

  // ---------- inboxes ----------

  lemma {:induction false} Push(q: seq<Event>, e: Event)
    requires Tidy(q) && e !in q && DisconnectEv !in q
    requires e == ReadyEv || e == AcceptedEv ==> q == []
    ensures Tidy(q + [e])
    ensures forall x :: x in q + [e] <==> x in q || x == e
  {
  }

  lemma Pop(q: seq<Event>, k: nat)
    requires Tidy(q) && k < |q|
    ensures Tidy(TakeOff(q, k))
    ensures forall x :: x in TakeOff(q, k) <==> x in q && x != q[k]
    ensures q[k] == DisconnectEv ==> k == |q| - 1
    ensures q[k] == ReadyEv || q[k] == AcceptedEv ==> k == 0
  {
    var t := TakeOff(q, k);
    assert forall i | 0 <= i < |t| :: t[i] == q[if i < k then i else i + 1];
    assert q == q[..k] + [q[k]] + q[k + 1..];
  }

  // ---------- each step ----------

  /** What has to be seen to when a step changes no more than the pipe. */
  lemma PipeApart(w: Ends, p: Pipe)
    requires Inv(w) && Lifecycle(w.me.(pipe := p)) && PipeMirrors(w.me.(pipe := p))
    ensures Inv(w.(me := w.me.(pipe := p)))
  {
    PipeApartEvents(w.me, w.peer, p);
    PipeApartFlow(w.me, w.peer, p);
    hide Lifecycle, PipeMirrors, Tokens, Inbox, Conserved;
  }

  lemma PipeApartEvents(x: Node, y: Node, p: Pipe)
    requires Tokens(x, y) && Tokens(y, x) && Inbox(x, y) && Inbox(y, x)
    ensures Tokens(x.(pipe := p), y) && Tokens(y, x.(pipe := p)) && Inbox(x.(pipe := p), y) && Inbox(y, x.(pipe := p))
  {
    hide Tidy;
  }

  lemma PipeApartFlow(x: Node, y: Node, p: Pipe)
    requires Conserved(x, y) && Conserved(y, x)
    ensures Conserved(x.(pipe := p), y) && Conserved(y, x.(pipe := p))
  {
    assert OnTheWay(x.(pipe := p), y) == OnTheWay(x, y) && OnTheWay(y, x.(pipe := p)) == OnTheWay(y, x);
  }

  lemma TakeInKeeps(w: Ends)
    requires Inv(w) && w.me.pipe.inQueued
    ensures Inv(w.(me := w.me.(pipe := TakeIn(w.me.pipe))))
  {
    hide Tokens, Inbox, Conserved;
    PipeApart(w, TakeIn(w.me.pipe));
  }

  lemma TakeOutKeeps(w: Ends)
    requires Inv(w) && w.me.pipe.outQueued
    ensures Inv(w.(me := w.me.(pipe := TakeOut(w.me.pipe))))
  {
    hide Tokens, Inbox, Conserved;
    PipeApart(w, TakeOut(w.me.pipe));
  }

  lemma OwnerKeeps(w: Ends)
    requires Inv(w) && w.me.told
    ensures Inv(w.(me := w.me.(told := false)))
  {
  }

  /** The states after a send on a granted pipe. */
  function AfterSend(w: Ends, m: Msg): Ends
  {
    Ends(w.me.(msg := Flat(m), sending := true, accepted := w.me.accepted + [m],
               pipe := w.me.pipe.(outstate := OutAsync, outGrant := false)),
         w.peer.(inbox := w.peer.inbox + [SentEv]))
  }

  lemma SendIs(w: Ends, m: Msg)
    requires Control(w) && Enabled(w, DoSend(A, m))
    ensures PipeSend(w, m) == Ok(AfterSend(w, m))
  {
  }

  lemma SendControl(w: Ends, m: Msg)
    requires Control(w) && Enabled(w, DoSend(A, m))
    ensures Control(AfterSend(w, m))
  {
    Push(w.peer.inbox, SentEv);
  }

  lemma SendKeeps(w: Ends, m: Msg)
    requires Inv(w) && Enabled(w, DoSend(A, m))
    ensures PipeSend(w, m).Ok? && Inv(PipeSend(w, m).value)
  {
    SendIs(w, m);
    SendControl(w, m);
    SendFlow(w, m);
    hide Control, Conserved, AfterSend, PipeSend;
  }

  lemma SendFlow(w: Ends, m: Msg)
    requires Inv(w) && Enabled(w, DoSend(A, m))
    ensures var v := AfterSend(w, m); Conserved(v.me, v.peer) && Conserved(v.peer, v.me)
  {
    CarriedPush(w.me.accepted, m);
    hide Carried, Lifecycle, Inbox;
    var v := AfterSend(w, m);
    assert OnTheWay(v.peer, v.me) == OnTheWay(w.peer, w.me);
    assert OnTheWay(v.me, v.peer) == OnTheWay(w.me, w.peer) + [Flat(m)];
  }

  /** The receiver's queue after one message left it: a parked message moves up
      if there is room for it now. */
  predicate MovesUp(w: Ends)
  {
    w.me.state != Disconnected && w.me.receiving && !Full(w.me.queue, w.me.maxmem, w.peer.msg)
  }

  function AfterUnpark(w: Ends): Ends
  {
    if MovesUp(w) then
      Ends(w.me.(queue := w.me.queue + [w.peer.msg], receiving := false),
           w.peer.(msg := EMPTY, inbox := w.peer.inbox + [ReceivedEv]))
    else w
  }

  function Popped(w: Ends): Ends
    requires |w.me.queue| > 0
  {
    w.(me := w.me.(queue := w.me.queue[1..], delivered := w.me.delivered + [w.me.queue[0]]))
  }

  function AfterRecv(w: Ends): Ends
    requires |w.me.queue| > 0
  {
    var v := AfterUnpark(Popped(w));
    v.(me := v.me.(pipe := v.me.pipe.(
      instate := if v.me.queue == [] then InAsync else InIdle,
      inGrant := v.me.pipe.inGrant && v.me.queue != [])))
  }

  lemma UnparkLeavesPipe(w: Ends, s: InState)
    requires |w.me.queue| > 0
    ensures AfterUnpark(Popped(SetIn(w, s))) == SetIn(AfterUnpark(Popped(w)), s)
  {
  }

  lemma InnerRecvIs(w: Ends)
    requires w.me.state == Active || w.me.state == Disconnected
    requires w.me.queue != []
    requires w.me.receiving ==> ReceivedEv !in w.peer.inbox
    ensures var v := AfterUnpark(Popped(w));
            Recv(w) == if v.me.queue != [] then Announce(v) else Ok(v)
  {
  }

  lemma RecvIs(w: Ends)
    requires w.me.state == Active || w.me.state == Disconnected
    requires w.me.pipe.instate == InIdle && w.me.queue != []
    requires w.me.receiving ==> ReceivedEv !in w.peer.inbox
    ensures PipeRecv(w) == Ok(AfterRecv(w))
  {
    hide AfterUnpark, Recv;
    InnerRecvIs(SetIn(w, InReceiving));
    UnparkLeavesPipe(w, InReceiving);
    var u := SetIn(AfterUnpark(Popped(w)), InReceiving);
    if u.me.queue != [] {
      assert Recv(SetIn(w, InReceiving)) == Ok(SetIn(u, InReceived));
    } else {
      assert Recv(SetIn(w, InReceiving)) == Ok(u);
    }
  }

  lemma RecvTokens(w: Ends)
    requires Control(w) && Enabled(w, DoRecv(A)) && |w.me.queue| > 0
    ensures Tokens(AfterRecv(w).me, AfterRecv(w).peer) && Tokens(AfterRecv(w).peer, AfterRecv(w).me)
  {
    hide Deliver, Full, Tidy, PipeMirrors, Lifecycle;
  }

  lemma RecvInbox(w: Ends)
    requires Control(w) && Enabled(w, DoRecv(A)) && |w.me.queue| > 0
    ensures Inbox(AfterRecv(w).me, AfterRecv(w).peer) && Inbox(AfterRecv(w).peer, AfterRecv(w).me)
  {
    hide Deliver, Full, PipeMirrors;
    if MovesUp(Popped(w)) {
      assert w.me.state == Active && ReceivedEv !in w.peer.inbox && w.peer.state != Connecting;
      assert !Heard(w.peer);
      hide Tokens, Lifecycle, Tidy;
      AnswerInbox(w.me, w.peer);
    }
  }

  lemma RecvHas(w: Ends)
    requires Control(w) && Enabled(w, DoRecv(A))
    ensures |w.me.queue| > 0
  {
    hide Tokens, Inbox, Lifecycle;
  }

  lemma RecvRest(w: Ends)
    requires Control(w) && Enabled(w, DoRecv(A)) && |w.me.queue| > 0
    ensures var v := AfterRecv(w);
            Lifecycle(v.me) && PipeMirrors(v.me) && Lifecycle(v.peer) && PipeMirrors(v.peer)
  {
    hide Tokens, Deliver, Joined, Tidy;
  }

  lemma RecvControl(w: Ends)
    requires Control(w) && Enabled(w, DoRecv(A))
    ensures |w.me.queue| > 0 && Control(AfterRecv(w))
  {
    RecvHas(w);
    RecvTokens(w);
    RecvInbox(w);
    RecvRest(w);
    hide Tokens, Inbox, Lifecycle, PipeMirrors, Full, Enabled;
  }

  lemma Shift(d: seq<Msg>, q: seq<Msg>, mail: seq<Msg>)
    requires |q| > 0
    ensures (d + [q[0]]) + q[1..] + mail == d + q + mail
    ensures (d + [q[0]]) + (q[1..] + mail) + [] == d + q + mail
  {
  }

  lemma RecvFlow(w: Ends)
    requires Tokens(w.peer, w.me) && |w.me.queue| > 0
    requires Conserved(w.me, w.peer) && Conserved(w.peer, w.me)
    ensures Conserved(AfterRecv(w).peer, AfterRecv(w).me)
    ensures Conserved(AfterRecv(w).me, AfterRecv(w).peer)
  {
    Shift(w.me.delivered, w.me.queue, Mailbox(w.peer, w.me));
    var v := AfterRecv(w);
    assert Mailbox(v.me, v.peer) == Mailbox(w.me, w.peer);
    assert OnTheWay(v.me, v.peer) == OnTheWay(w.me, w.peer);
    assert OnTheWay(v.peer, v.me) == OnTheWay(w.peer, w.me);
  }

  lemma RecvKeeps(w: Ends)
    requires Inv(w) && Enabled(w, DoRecv(A))
    ensures PipeRecv(w).Ok? && Inv(PipeRecv(w).value)
  {
    RecvIs(w);
    RecvControl(w);
    RecvFlow(w);
  }

  function AfterStop(w: Ends): Ends
  {
    Ends(w.me.(fsm := FsmStopping, pipe := PipeStop(w.me.pipe), state := StoppingPeer),
         w.peer.(inbox := w.peer.inbox + [DisconnectEv]))
  }

  lemma StopIs(w: Ends)
    requires Control(w) && w.me.state == Active
    ensures Stop(w) == Ok(AfterStop(w))
  {
  }

  lemma StopControl(w: Ends)
    requires Control(w) && w.me.state == Active
    ensures Control(AfterStop(w))
  {
    StopInbox(w);
    hide Inbox;
  }

  lemma StopInbox(w: Ends)
    requires Control(w) && w.me.state == Active
    ensures Inbox(AfterStop(w).me, AfterStop(w).peer) && Inbox(AfterStop(w).peer, AfterStop(w).me)
  {
    Push(w.peer.inbox, DisconnectEv);
    hide Tidy, Tokens, PipeMirrors, Lifecycle;
  }

  lemma StopFlow(w: Ends)
    requires Inv(w) && w.me.state == Active
    ensures Conserved(AfterStop(w).me, AfterStop(w).peer) && Conserved(AfterStop(w).peer, AfterStop(w).me)
  {
  }

  /** A disconnected end has nothing to wait for but a late RECEIVED. */
  function AfterStopDisconnected(w: Ends): Ends
  {
    w.(me := w.me.(state := Stopping, fsm := if w.me.inbox == [] then FsmIdle else FsmStopping,
                   stopped := if w.me.inbox == [] then w.me.stopped + 1 else w.me.stopped))
  }

  lemma StopDisconnectedIs(w: Ends)
    requires Control(w) && w.me.state == Disconnected && !Pending(w.me)
    ensures Stop(w) == Ok(AfterStopDisconnected(w))
  {
  }

  lemma StopDisconnectedKeeps(w: Ends)
    requires Inv(w) && w.me.state == Disconnected && !Pending(w.me)
    ensures Inv(AfterStopDisconnected(w))
  {
  }

  lemma StopKeeps(w: Ends)
    requires Inv(w) && Careful(w, DoStop(A)) && !Pending(w.me)
    ensures Stop(w).Ok? && Inv(Stop(w).value)
  {
    if w.me.state == Active {
      StopIs(w);
      StopControl(w);
      StopFlow(w);
    } else if w.me.state == Disconnected {
      StopDisconnectedIs(w);
      StopDisconnectedKeeps(w);
    }
  }

  // ---------- delivery ----------

  /** The k-th event can be delivered in its turn. */
  predicate InTurn(w: Ends, k: nat)
  {
    k < |w.me.inbox| && Careful(w, DoDeliver(A, k, true))
  }

  lemma DeliverReady(w: Ends, k: nat)
    requires Inv(w) && w.me.state == Connecting && InTurn(w, k)
    ensures Deliver(w, k, true).Ok? && Inv(Deliver(w, k, true).value)
  {
    hide Half, Deliver, Conserved;
    ReadyIs(w, k);
    ReadyFlow(w);
  }

  lemma ReadyFlow(w: Ends)
    requires w.me.inbox == [ReadyEv] && w.peer.inbox == [] && Taken(w, 0).me.inbox == []
    requires Conserved(w.me, w.peer) && Conserved(w.peer, w.me)
    ensures var v := AfterReady(Taken(w, 0)); Conserved(v.me, v.peer) && Conserved(v.peer, v.me)
  {
  }

  function AfterReady(w: Ends): Ends
  {
    Ends(w.me.(pipe := w.me.pipe.(state := PActive, instate := InAsync, outstate := OutIdle, outQueued := true),
               hasPeer := true, state := Active),
         w.peer.(inbox := w.peer.inbox + [AcceptedEv]))
  }

  lemma ReadyStep(w: Ends)
    requires w.me.state == Connecting && w.me.fsm == FsmActive && w.me.inbox == [ReadyEv] && w.me.pipe == FRESH_PIPE
    requires w.peer.inbox == []
    ensures Deliver(w, 0, true) == Ok(AfterReady(Taken(w, 0)))
  {
  }

  lemma ReadyIs(w: Ends, k: nat)
    requires Control(w) && w.me.state == Connecting && k < |w.me.inbox|
    ensures k == 0 && w.me.inbox == [ReadyEv] && w.peer.inbox == [] && Taken(w, 0).me.inbox == []
    ensures Deliver(w, k, true) == Ok(AfterReady(Taken(w, 0))) && Control(AfterReady(Taken(w, 0)))
  {
    hide Deliver;
    ReadyStep(w);
    ReadyTokens(w);
    hide Tokens, PipeMirrors;
  }

  lemma ReadyTokens(w: Ends)
    requires Control(w) && w.me.state == Connecting && w.me.inbox == [ReadyEv] && w.peer.inbox == []
    ensures var v := AfterReady(Taken(w, 0));
            && Tokens(v.me, v.peer) && Tokens(v.peer, v.me) && PipeMirrors(v.me) && PipeMirrors(v.peer)
  {
    assert Taken(w, 0).me.inbox == [];
    hide Tidy;
  }

  lemma DeliverAccepted(w: Ends, k: nat)
    requires Inv(w) && w.me.state == Ready && InTurn(w, k)
    ensures Deliver(w, k, true).Ok? && Inv(Deliver(w, k, true).value)
  {
    AcceptedControl(w, k);
    AcceptedIs(w, k);
    Pop(w.me.inbox, k);
    hide Control, TakeOff, Careful, Deliver;
  }

  function AfterAccepted(w: Ends): Ends
  {
    w.(me := w.me.(state := Active,
                   pipe := FRESH_PIPE.(state := PActive, instate := InAsync, outstate := OutIdle, outQueued := true)))
  }

  lemma AcceptedIs(w: Ends, k: nat)
    requires Control(w) && w.me.state == Ready && InTurn(w, k)
    ensures w.me.inbox[k] == AcceptedEv && Deliver(w, k, true) == Ok(AfterAccepted(Taken(w, k)))
  {
    hide PipeMirrors, Tokens, TakeOff;
  }

  lemma AcceptedControl(w: Ends, k: nat)
    requires Control(w) && w.me.state == Ready && InTurn(w, k)
    ensures Deliver(w, k, true).Ok? && Control(Deliver(w, k, true).value)
  {
    AcceptedIs(w, k);
    Pop(w.me.inbox, k);
    hide Deliver, TakeOff, Careful;
  }

  lemma DeliverReceived(w: Ends, k: nat)
    requires Inv(w) && w.me.state == Active && k < |w.me.inbox| && w.me.inbox[k] == ReceivedEv && !Pending(w.me)
    ensures Deliver(w, k, true).Ok? && Inv(Deliver(w, k, true).value)
  {
    ReceivedStep(w, k);
    ReceivedControl(w, k);
    Pop(w.me.inbox, k);
    hide Deliver, Control, TakeOff;
  }

  /** The mailbox is empty again, and the pipe tells its socket. */
  function AfterReceived(w: Ends): Ends
  {
    w.(me := w.me.(sending := false, pipe := w.me.pipe.(outstate := OutIdle, outQueued := true)))
  }

  lemma ReceivedStep(w: Ends, k: nat)
    requires Control(w) && w.me.state == Active && !Pending(w.me) && k < |w.me.inbox| && w.me.inbox[k] == ReceivedEv
    ensures Deliver(w, k, true) == Ok(AfterReceived(Taken(w, k)))
  {
    hide Tidy, TakeOff;
    assert ReceivedEv in w.me.inbox;
  }

  lemma ReceivedControl(w: Ends, k: nat)
    requires Control(w) && w.me.state == Active && k < |w.me.inbox| && w.me.inbox[k] == ReceivedEv && !Pending(w.me)
    ensures Control(AfterReceived(Taken(w, k)))
  {
    Pop(w.me.inbox, k);
    TakenInbox(w.me, w.peer, k);
    ReceivedTokens(w, k);
    hide Inbox, Tokens, TakeOff;
  }

  lemma ReceivedTokens(w: Ends, k: nat)
    requires Control(w) && w.me.state == Active && k < |w.me.inbox| && w.me.inbox[k] == ReceivedEv
    ensures var v := AfterReceived(Taken(w, k)); Tokens(v.me, v.peer) && Tokens(v.peer, v.me)
    ensures w.me.sending
  {
    assert ReceivedEv in w.me.inbox;
    Pop(w.me.inbox, k);
    hide Inbox, PipeMirrors, Lifecycle, TakeOff;
  }

  function AfterDisconnect(w: Ends): Ends
  {
    Ends(w.me.(pipe := PipeStop(w.me.pipe), state := Disconnected, hasPeer := false, told := true),
         w.peer.(inbox := w.peer.inbox + [DisconnectEv]))
  }

  lemma DisconnectIs(w: Ends, k: nat)
    requires Control(w) && w.me.state == Active && k < |w.me.inbox| && w.me.inbox[k] == DisconnectEv
    ensures Deliver(w, k, true) == Ok(AfterDisconnect(Taken(w, k)))
  {
  }

  lemma TwoAlike(q: seq<Event>, k: nat)
    requires k < |q| && forall j | 0 <= j < k :: q[j] == ReceivedEv
    ensures k > 1 ==> q[0] == q[1]
  {
  }

  lemma OnlyReceivedPassed(w: Ends, k: nat)
    requires Tidy(w.me.inbox) && InTurn(w, k) && w.me.inbox[k] == DisconnectEv
    ensures TakeOff(w.me.inbox, k) == [] || TakeOff(w.me.inbox, k) == [ReceivedEv]
  {
    Pop(w.me.inbox, k);
    assert forall j | 0 <= j < k :: w.me.inbox[j] == ReceivedEv;
    TwoAlike(w.me.inbox, k);
    assert TakeOff(w.me.inbox, k) == w.me.inbox[..k];
  }

  lemma DisconnectControl(w: Ends, k: nat)
    requires Control(w) && w.me.state == Active && InTurn(w, k) && w.me.inbox[k] == DisconnectEv
    ensures Control(AfterDisconnect(Taken(w, k)))
  {
    Pop(w.me.inbox, k);
    OnlyReceivedPassed(w, k);
    hide Careful, Lifecycle, PipeMirrors, Tokens, TakeOff;
    assert Control(w) && w.me.inbox[k] in w.me.inbox;
    DisconnectInbox(w, TakeOff(w.me.inbox, k));
    DisconnectRest(w, TakeOff(w.me.inbox, k));
    hide Inbox;
  }

  lemma DisconnectInbox(w: Ends, q: seq<Event>)
    requires Control(w) && w.me.state == Active && DisconnectEv in w.me.inbox && (q == [] || q == [ReceivedEv])
    requires forall e :: e in q <==> e in w.me.inbox && e != DisconnectEv
    ensures var v := AfterDisconnect(w.(me := w.me.(inbox := q))); Inbox(v.me, v.peer) && Inbox(v.peer, v.me)
  {
    Push(w.peer.inbox, DisconnectEv);
    hide Lifecycle, PipeMirrors, Tokens;
  }

  lemma DisconnectRest(w: Ends, q: seq<Event>)
    requires Control(w) && w.me.state == Active && DisconnectEv in w.me.inbox && (q == [] || q == [ReceivedEv])
    requires forall e :: e in q <==> e in w.me.inbox && e != DisconnectEv
    ensures var v := AfterDisconnect(w.(me := w.me.(inbox := q)));
            && Lifecycle(v.me) && PipeMirrors(v.me) && Lifecycle(v.peer) && PipeMirrors(v.peer)
            && Tokens(v.me, v.peer) && Tokens(v.peer, v.me)
  {
    hide Tidy;
  }

  lemma DisconnectFlow(w: Ends, k: nat)
    requires Inv(w) && w.me.state == Active && k < |w.me.inbox| && w.me.inbox[k] == DisconnectEv
    ensures Conserved(AfterDisconnect(Taken(w, k)).me, AfterDisconnect(Taken(w, k)).peer)
    ensures Conserved(AfterDisconnect(Taken(w, k)).peer, AfterDisconnect(Taken(w, k)).me)
  {
  }

  /** An inbox without an event that any end may get while the session lasts. */
  lemma TakenInbox(x: Node, y: Node, k: nat)
    requires Inbox(x, y) && Inbox(y, x) && k < |x.inbox| && (x.inbox[k] == SentEv || x.inbox[k] == ReceivedEv)
    ensures Inbox(x.(inbox := TakeOff(x.inbox, k)), y) && Inbox(y, x.(inbox := TakeOff(x.inbox, k)))
  {
    Pop(x.inbox, k);
    assert x.inbox == [ReceivedEv] ==> TakeOff(x.inbox, k) == [];
    hide TakeOff, Tidy;
  }

  lemma TakenRest(x: Node, q: seq<Event>)
    requires Lifecycle(x) && PipeMirrors(x) && x.state != Stopping
    ensures Lifecycle(x.(inbox := q)) && PipeMirrors(x.(inbox := q))
  {
  }

  lemma IgnoredControl(w: Ends, k: nat)
    requires Control(w) && InTurn(w, k) && w.me.inbox[k] != DisconnectEv
    requires w.me.state == StoppingPeer || w.me.state == Disconnected
    ensures Deliver(w, k, true) == Ok(Taken(w, k)) && Control(Taken(w, k))
    ensures w.me.inbox[k] == SentEv ==> w.me.state == StoppingPeer
  {
    hide Deliver, PipeMirrors, Tokens, TakeOff, Lifecycle, Careful;
    IgnoredIs(w, k);
    IgnoredTokens(w, k);
    IgnoredEvents(w, k);
    hide Inbox;
    TakenInbox(w.me, w.peer, k);
    TakenRest(w.me, TakeOff(w.me.inbox, k));
  }

  /** What an end that is going away may still find. */
  lemma IgnoredEvents(w: Ends, k: nat)
    requires Control(w) && k < |w.me.inbox| && w.me.inbox[k] != DisconnectEv
    requires w.me.state == StoppingPeer || w.me.state == Disconnected
    ensures w.me.inbox[k] == ReceivedEv || (w.me.inbox[k] == SentEv && w.me.state == StoppingPeer)
  {
    hide PipeMirrors, Tokens, Tidy, Lifecycle;
    assert w.me.inbox[k] in w.me.inbox;
  }

  lemma IgnoredTokens(w: Ends, k: nat)
    requires Control(w) && k < |w.me.inbox| && (w.me.state == StoppingPeer || w.me.state == Disconnected)
    ensures Tokens(Taken(w, k).me, w.peer) && Tokens(w.peer, Taken(w, k).me)
  {
    Pop(w.me.inbox, k);
    hide PipeMirrors, Tidy, TakeOff, Lifecycle;
  }

  lemma IgnoredIs(w: Ends, k: nat)
    requires Control(w) && k < |w.me.inbox| && w.me.inbox[k] != DisconnectEv
    requires w.me.state == StoppingPeer || w.me.state == Disconnected
    ensures Deliver(w, k, true) == Ok(Taken(w, k))
  {
  }

  /** An end on its way out ignores everything but DISCONNECT, and a disconnected one
      ignores a late RECEIVED. */
  lemma DeliverIgnored(w: Ends, k: nat)
    requires Inv(w) && InTurn(w, k) && w.me.inbox[k] != DisconnectEv
    requires w.me.state == StoppingPeer || w.me.state == Disconnected
    ensures Deliver(w, k, true) == Ok(Taken(w, k)) && Inv(Taken(w, k))
  {
    hide Deliver, Careful, PipeMirrors, Tidy, Lifecycle;
    IgnoredControl(w, k);
    Pop(w.me.inbox, k);
    var v := Taken(w, k);
    assert Conserved(v.me, v.peer);
    assert Conserved(v.peer, v.me);
  }

  /** An end that has heard the last word reports as soon as nothing is in flight. */
  function Reporting(w: Ends): Ends
  {
    if w.me.inbox == [] then w.(me := w.me.(state := Stopping, fsm := FsmIdle, stopped := 1))
    else w.(me := w.me.(state := Stopping))
  }

  /** The peer's answer ends the shutdown. */
  lemma FarewellIs(w: Ends, k: nat)
    requires Control(w) && w.me.state == StoppingPeer && InTurn(w, k) && w.me.inbox[k] == DisconnectEv
    ensures Deliver(w, k, true) == Ok(Reporting(Taken(w, k)))
  {
    Pop(w.me.inbox, k);
    OnlyReceivedPassed(w, k);
  }

  lemma FarewellKeeps(w: Ends, k: nat)
    requires Inv(w) && w.me.state == StoppingPeer && InTurn(w, k) && w.me.inbox[k] == DisconnectEv
    ensures Inv(Reporting(Taken(w, k)))
  {
    OnlyReceivedPassed(w, k);
    Pop(w.me.inbox, k);
    FarewellControl(w, TakeOff(w.me.inbox, k));
    FarewellFlow(w, TakeOff(w.me.inbox, k));
    hide Control, Conserved, TakeOff, Careful;
  }

  lemma FarewellControl(w: Ends, q: seq<Event>)
    requires Control(w) && w.me.state == StoppingPeer && DisconnectEv in w.me.inbox && (q == [] || q == [ReceivedEv])
    requires forall e :: e in q <==> e in w.me.inbox && e != DisconnectEv
    ensures Control(Reporting(w.(me := w.me.(inbox := q))))
  {
    FarewellTokens(w, q);
    FarewellInbox(w, q);
    hide Tokens, Inbox;
  }

  lemma FarewellTokens(w: Ends, q: seq<Event>)
    requires Control(w) && w.me.state == StoppingPeer && DisconnectEv in w.me.inbox
    requires forall e :: e in q <==> e in w.me.inbox && e != DisconnectEv
    ensures var v := Reporting(w.(me := w.me.(inbox := q))); Tokens(v.me, v.peer) && Tokens(v.peer, v.me)
  {
    hide Inbox, PipeMirrors, Lifecycle;
  }

  lemma FarewellInbox(w: Ends, q: seq<Event>)
    requires Control(w) && w.me.state == StoppingPeer && DisconnectEv in w.me.inbox && (q == [] || q == [ReceivedEv])
    requires forall e :: e in q <==> e in w.me.inbox && e != DisconnectEv
    ensures var v := Reporting(w.(me := w.me.(inbox := q))); Inbox(v.me, v.peer) && Inbox(v.peer, v.me)
  {
    hide Tokens, PipeMirrors, Lifecycle;
  }

  lemma FarewellFlow(w: Ends, q: seq<Event>)
    requires Conserved(w.me, w.peer) && Conserved(w.peer, w.me)
    requires forall e :: e in q <==> e in w.me.inbox && e != DisconnectEv
    ensures var v := Reporting(w.(me := w.me.(inbox := q))); Conserved(v.me, v.peer) && Conserved(v.peer, v.me)
  {
    hide Carried;
    var v := Reporting(w.(me := w.me.(inbox := q)));
    assert OnTheWay(v.me, v.peer) == OnTheWay(w.me, w.peer);
    assert OnTheWay(v.peer, v.me) == OnTheWay(w.peer, w.me);
  }

  /** A RECEIVED that DISCONNECT has passed is waited for. */
  lemma LateReceivedIs(w: Ends, k: nat)
    requires Control(w) && w.me.state == Stopping && k < |w.me.inbox|
    ensures k == 0 && w.me.inbox == [ReceivedEv] && Taken(w, k).me.inbox == []
    ensures Deliver(w, k, true) == Ok(Reporting(Taken(w, k)))
  {
  }

  lemma LateReceivedControl(w: Ends)
    requires Control(w) && w.me.state == Stopping && w.me.inbox == [ReceivedEv]
    ensures Control(w.(me := w.me.(inbox := [], fsm := FsmIdle, stopped := 1)))
  {
  }

  lemma LateReceived(w: Ends, k: nat)
    requires Inv(w) && w.me.state == Stopping && k < |w.me.inbox|
    ensures Deliver(w, k, true) == Ok(Reporting(Taken(w, k))) && Inv(Reporting(Taken(w, k)))
  {
    hide Control;
    LateReceivedIs(w, k);
    LateReceivedControl(w);
  }

  lemma DeliverNothingElse(w: Ends)
    requires Control(w) && w.me.inbox != []
    ensures w.me.state != Idle
    ensures w.me.state == Active ==>
              forall e | e in w.me.inbox :: e == SentEv || e == ReceivedEv || e == DisconnectEv
    ensures Heard(w.me) ==> w.me.inbox == [ReceivedEv]
  {
  }

  /** SENT finds room, or finds the queue full and leaves the message parked. */
  function AfterSent(w: Ends): Ends
  {
    if Full(w.me.queue, w.me.maxmem, w.peer.msg) then w.(me := w.me.(receiving := true))
    else
      Ends(w.me.(queue := w.me.queue + [w.peer.msg],
                 pipe := if w.me.queue == [] then w.me.pipe.(instate := InIdle, inQueued := true) else w.me.pipe),
           w.peer.(msg := EMPTY, inbox := w.peer.inbox + [ReceivedEv]))
  }

  lemma SentIs(w: Ends, k: nat)
    requires Control(w) && w.me.state == Active && k < |w.me.inbox| && w.me.inbox[k] == SentEv
    ensures Deliver(w, k, true) == Ok(AfterSent(Taken(w, k)))
  {
  }

  lemma SentTokens(w: Ends, k: nat)
    requires Control(w) && w.me.state == Active && k < |w.me.inbox| && w.me.inbox[k] == SentEv
    ensures var v := AfterSent(Taken(w, k)); Tokens(v.me, v.peer) && Tokens(v.peer, v.me)
  {
    Pop(w.me.inbox, k);
    hide PipeMirrors, Tidy, TakeOff, Lifecycle, Full;
  }

  /** RECEIVED joins what is in flight to a session that waits for it. */
  lemma AnswerInbox(x: Node, y: Node)
    requires Inbox(x, y) && Inbox(y, x) && x.state == Active && y.state != Connecting && !Heard(y)
    requires ReceivedEv !in y.inbox && (y.state == Ready ==> AcceptedEv in y.inbox)
    ensures Inbox(x, y.(inbox := y.inbox + [ReceivedEv])) && Inbox(y.(inbox := y.inbox + [ReceivedEv]), x)
  {
    Push(y.inbox, ReceivedEv);
    hide Tidy;
  }

  lemma SentInbox(w: Ends, k: nat)
    requires Control(w) && w.me.state == Active && k < |w.me.inbox| && w.me.inbox[k] == SentEv
    ensures var v := AfterSent(Taken(w, k)); Inbox(v.me, v.peer) && Inbox(v.peer, v.me)
  {
    hide PipeMirrors, Tidy, TakeOff, Lifecycle, Full;
    TakenInbox(w.me, w.peer, k);
    if !Full(w.me.queue, w.me.maxmem, w.peer.msg) {
      AnswerInbox(w.me.(inbox := TakeOff(w.me.inbox, k)), w.peer);
    }
  }

  lemma SentControl(w: Ends, k: nat)
    requires Control(w) && w.me.state == Active && k < |w.me.inbox| && w.me.inbox[k] == SentEv
    ensures Control(AfterSent(Taken(w, k)))
  {
    SentTokens(w, k);
    SentInbox(w, k);
    SentRest(w, k);
    hide Tokens, Inbox, Lifecycle, PipeMirrors, TakeOff, Full;
  }

  lemma SentRest(w: Ends, k: nat)
    requires Control(w) && w.me.state == Active && k < |w.me.inbox| && w.me.inbox[k] == SentEv
    ensures var v := AfterSent(Taken(w, k));
            Lifecycle(v.me) && PipeMirrors(v.me) && Lifecycle(v.peer) && PipeMirrors(v.peer)
  {
    hide Tokens, Tidy, TakeOff;
  }

  lemma SentFlow(w: Ends, k: nat)
    requires Inv(w) && w.me.state == Active && k < |w.me.inbox| && w.me.inbox[k] == SentEv
    ensures Conserved(AfterSent(Taken(w, k)).me, AfterSent(Taken(w, k)).peer)
    ensures Conserved(AfterSent(Taken(w, k)).peer, AfterSent(Taken(w, k)).me)
  {
    Pop(w.me.inbox, k);
    assert w.me.inbox[k] in w.me.inbox;
    SentMoves(w, TakeOff(w.me.inbox, k));
    hide Control, TakeOff, AfterSent, Conserved;
  }

  lemma SentMoves(w: Ends, q: seq<Event>)
    requires Tokens(w.peer, w.me) && SentEv in w.me.inbox && forall e :: e in q <==> e in w.me.inbox && e != SentEv
    requires Conserved(w.me, w.peer) && Conserved(w.peer, w.me)
    ensures var v := AfterSent(w.(me := w.me.(inbox := q))); Conserved(v.me, v.peer) && Conserved(v.peer, v.me)
  {
    hide Full;
    var v := AfterSent(w.(me := w.me.(inbox := q)));
    assert OnTheWay(v.me, v.peer) == OnTheWay(w.me, w.peer);
    assert OnTheWay(v.peer, v.me) == OnTheWay(w.peer, w.me);
  }

  lemma DeliverKeeps(w: Ends, k: nat, added: bool)
    requires Inv(w) && Enabled(w, DoDeliver(A, k, added)) && Careful(w, DoDeliver(A, k, added))
    ensures Deliver(w, k, added).Ok? && Inv(Deliver(w, k, added).value)
  {
    hide Half, Conserved, TakeOff;
    DeliverNothingElse(w);
    assert Deliver(w, k, added) == Deliver(w, k, true);
    var e := w.me.inbox[k];
    assert e in w.me.inbox;
    match w.me.state
    case Connecting => DeliverReady(w, k);
    case Ready => DeliverAccepted(w, k);
    case StoppingPeer =>
      if e == DisconnectEv { FarewellIs(w, k); FarewellKeeps(w, k); } else { DeliverIgnored(w, k); }
    case Disconnected => DeliverIgnored(w, k);
    case Stopping => LateReceived(w, k);
    case Active =>
      match e
      case SentEv => SentIs(w, k); SentControl(w, k); SentFlow(w, k);
      case ReceivedEv => DeliverReceived(w, k);
      case DisconnectEv => DisconnectIs(w, k); DisconnectControl(w, k); DisconnectFlow(w, k);
  }

  /** No careful step of either end, at any moment, reaches a fatal check. */
  lemma StepKeeps(w: Ends, s: Step)
    requires Inv(w) && Enabled(w, s) && Careful(w, s)
    ensures Apply(w, s).Ok? && Inv(Apply(w, s).value)
  {
    match s
    case DoDeliver(_, k, added) => DeliverKeeps(w, k, added);
    case DoSend(_, m) => SendKeeps(w, m);
    case DoRecv(_) => RecvKeeps(w);
    case DoTakeIn(_) => TakeInKeeps(w);
    case DoTakeOut(_) => TakeOutKeeps(w);
    case DoOwner(_) => OwnerKeeps(w);
    case DoStop(_) => StopKeeps(w);
  }
}
