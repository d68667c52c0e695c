/** The in-process session: two sinproc ends, their pipes, and the events in
    flight between them.  Every function models one function of the
    program on values; an operation takes the end it runs on (`me`) and the end
    it talks to (`peer`). */
module Session {
  import opened Outcome
  import opened Messages

  datatype Event = ReadyEv | AcceptedEv | SentEv | ReceivedEv | DisconnectEv

  datatype FsmState = FsmIdle | FsmActive | FsmStopping

  datatype State = Idle | Connecting | Ready | Active | Disconnected | StoppingPeer | Stopping

  datatype PipeState = PIdle | PActive | PFailed
  datatype InState = InDeactivated | InIdle | InReceiving | InReceived | InAsync
  datatype OutState = OutDeactivated | OutIdle | OutSending | OutSent | OutAsync

  /** `inQueued` and `outQueued` say that the pipe's event objects wait in the
      socket's queue.  `inGrant` and `outGrant` are the socket's side: it was
      told that the pipe is readable (writable) and no later call released it. */
  datatype Pipe = Pipe(
    state: PipeState, instate: InState, outstate: OutState,
    inQueued: bool, outQueued: bool, inGrant: bool, outGrant: bool)

  /** `inbox` holds the events the peer raised to this end and that are not yet
      processed.  `told` says that this end's event_disconnect waits in its
      owner's queue.  `accepted` and `delivered` log the messages as they were given
      to send and as recv gave them out; `stopped` counts STOPPED reports. */
  datatype Node = Node(
    connector: bool,
    fsm: FsmState, state: State, sending: bool, receiving: bool, hasPeer: bool,
    pipe: Pipe, queue: seq<Msg>, maxmem: nat, msg: Msg,
    inbox: seq<Event>, told: bool, stopped: nat,
    accepted: seq<Msg>, delivered: seq<Msg>)

  datatype Ends = Ends(me: Node, peer: Node)

  // ---------- raising events ----------

  /** Whether the event object that `me` would use to raise `e` is queued. */
  predicate ObjectQueued(w: Ends, e: Event)
  {
    match e
    case ReadyEv | AcceptedEv => ReadyEv in w.peer.inbox || AcceptedEv in w.peer.inbox
    case DisconnectEv => DisconnectEv in w.peer.inbox || w.peer.told
    case _ => e in w.peer.inbox
  }

  function RaiseTo(w: Ends, e: Event): (r: Result<Ends>)
  {
    if ObjectQueued(w, e) then Abort(QueueC, 23)
    else Ok(w.(peer := w.peer.(inbox := w.peer.inbox + [e])))
  }

  /** Raise this end's event_disconnect to the owner. */
  function RaiseOwn(w: Ends): (r: Result<Ends>)
  {
    if DisconnectEv in w.me.inbox || w.me.told then Abort(QueueC, 23)
    else Ok(w.(me := w.me.(told := true)))
  }

  // ---------- the pipe ----------

  function PipeStart(p: Pipe, added: bool): (r: Result<Pipe>)
  {
    if p.state != PIdle then Abort(PipeC, 55)
    else
      var p1 := p.(state := PActive, instate := InAsync, outstate := OutIdle);
      if !added then Ok(p1.(state := PFailed))
      else if p.outQueued then Abort(QueueC, 23)
      else Ok(p1.(outQueued := true))
  }

  function PipeStop(p: Pipe): Pipe
  {
    p.(state := PIdle)
  }

  function PipeReceived(p: Pipe): (r: Result<Pipe>)
  {
    if p.instate == InReceiving then Ok(p.(instate := InReceived))
    else if p.instate != InAsync then Abort(PipeC, 84)
    else if p.inQueued then Abort(QueueC, 23)
    else Ok(p.(instate := InIdle, inQueued := true))
  }

  function PipeSent(p: Pipe): (r: Result<Pipe>)
  {
    if p.outstate == OutSending then Ok(p.(outstate := OutSent))
    else if p.outstate != OutAsync then Abort(PipeC, 95)
    else if p.outQueued then Abort(QueueC, 23)
    else Ok(p.(outstate := OutIdle, outQueued := true))
  }

  /** The socket processes the pipe's queued IN (OUT) event. */
  function TakeIn(p: Pipe): Pipe
  {
    p.(inQueued := false, inGrant := true)
  }

  function TakeOut(p: Pipe): Pipe
  {
    p.(outQueued := false, outGrant := true)
  }

  // ---------- send ----------

  /** The flag of the result is false for -ECONNRESET. */
  function Send(w: Ends, m: Msg): (r: Result<(Ends, bool)>)
  {
    if w.me.state == Disconnected then Ok((w, false))
    else if w.me.state != Active then Abort(SinprocC, 100)
    else if w.me.sending then Abort(SinprocC, 101)
    else
      var me := w.me.(msg := Flat(m), sending := true, accepted := w.me.accepted + [m]);
      var w1 :- RaiseTo(Ends(me, w.peer), SentEv);
      Ok((w1, true))
  }

  function SetIn(w: Ends, s: InState): Ends
  {
    w.(me := w.me.(pipe := w.me.pipe.(instate := s)))
  }

  function SetOut(w: Ends, s: OutState): Ends
  {
    w.(me := w.me.(pipe := w.me.pipe.(outstate := s)))
  }

  function PipeSend(w: Ends, m: Msg): (r: Result<Ends>)
  {
    if w.me.pipe.outstate != OutIdle then Abort(PipeC, 156)
    else
      var (w1, ok) :- Send(SetOut(w, OutSending), m);
      if !ok then Abort(PipeC, 159) else SendDone(w1)
  }

  /** The end of a pipe send: a pipe not yet acknowledged is released. */
  function SendDone(w: Ends): (r: Result<Ends>)
  {
    if w.me.pipe.outstate == OutSent then Ok(SetOut(w, OutIdle))
    else if w.me.pipe.outstate != OutSending then Abort(PipeC, 164)
    else Ok(w.(me := w.me.(pipe := w.me.pipe.(outstate := OutAsync, outGrant := false))))
  }

  // ---------- recv ----------

  /** Move the peer's mailbox into the queue and acknowledge it. */
  function TakeMailbox(w: Ends): (r: Result<Ends>)
  {
    var me := w.me.(queue := w.me.queue + [w.peer.msg]);
    RaiseTo(Ends(me, w.peer.(msg := EMPTY)), ReceivedEv)
  }

  function Unpark(w: Ends): (r: Result<Ends>)
  {
    if w.me.state == Disconnected || !w.me.receiving || Full(w.me.queue, w.me.maxmem, w.peer.msg) then Ok(w)
    else
      var w1 :- TakeMailbox(w);
      Ok(w1.(me := w1.me.(receiving := false)))
  }

  /** Tell the pipe that a message can be received. */
  function Announce(w: Ends): (r: Result<Ends>)
  {
    var p :- PipeReceived(w.me.pipe);
    Ok(w.(me := w.me.(pipe := p)))
  }

  function Recv(w: Ends): (r: Result<Ends>)
  {
    if w.me.state != Active && w.me.state != Disconnected then Abort(SinprocC, 129)
    else if w.me.queue == [] then Abort(SinprocC, 133)
    else
      var me := w.me.(queue := w.me.queue[1..], delivered := w.me.delivered + [w.me.queue[0]]);
      var w1 :- Unpark(Ends(me, w.peer));
      if w1.me.queue != [] then Announce(w1) else Ok(w1)
  }

  function PipeRecv(w: Ends): (r: Result<Ends>)
  {
    if w.me.pipe.instate != InIdle then Abort(PipeC, 175)
    else
      var w1 :- Recv(SetIn(w, InReceiving));
      RecvDone(w1)
  }

  /** The end of a pipe receive: a pipe with nothing more to give is released. */
  function RecvDone(w: Ends): (r: Result<Ends>)
  {
    if w.me.pipe.instate == InReceived then Ok(SetIn(w, InIdle))
    else if w.me.pipe.instate != InReceiving then Abort(PipeC, 184)
    else Ok(w.(me := w.me.(pipe := w.me.pipe.(instate := InAsync, inGrant := false))))
  }

  // ---------- the event handler ----------

  /** READY in state CONNECTING: the peer is known, the handshake goes on. */
  function OnReady(w: Ends, added: bool): (r: Result<Ends>)
  {
    var p :- PipeStart(w.me.pipe, added);
    if !added then Abort(SinprocC, 291)
    else RaiseTo(w.(me := w.me.(hasPeer := true, pipe := p, state := Active)), AcceptedEv)
  }

  /** ACCEPTED in state READY. */
  function OnAccepted(w: Ends, added: bool): (r: Result<Ends>)
  {
    var p :- PipeStart(w.me.pipe, added);
    if !added then
      RaiseOwn(w.(me := w.me.(pipe := PipeStop(p), state := Disconnected, hasPeer := false)))
    else Ok(w.(me := w.me.(pipe := p, state := Active)))
  }

  /** SENT in state ACTIVE: take the message now, or leave it in the mailbox. */
  function OnSent(w: Ends): (r: Result<Ends>)
  {
    if Full(w.me.queue, w.me.maxmem, w.peer.msg) then Ok(w.(me := w.me.(receiving := true)))
    else
      var me := w.me.(queue := w.me.queue + [w.peer.msg]);
      var w1 := Ends(me, w.peer.(msg := EMPTY));
      var w2 :- if w.me.queue == [] then Announce(w1) else Ok(w1);
      RaiseTo(w2, ReceivedEv)
  }

  /** RECEIVED in state ACTIVE: the peer has taken the mailbox. */
  function OnReceived(w: Ends): (r: Result<Ends>)
  {
    if !w.me.sending then Abort(SinprocC, 369)
    else
      var p :- PipeSent(w.me.pipe);
      Ok(w.(me := w.me.(pipe := p, sending := false)))
  }

  /** DISCONNECT in state ACTIVE: answer, forget the peer and tell the owner. */
  function OnDisconnect(w: Ends): (r: Result<Ends>)
  {
    var w1 :- RaiseTo(w.(me := w.me.(pipe := PipeStop(w.me.pipe))), DisconnectEv);
    RaiseOwn(w1.(me := w1.me.(state := Disconnected, hasPeer := false)))
  }

  function Handler(w: Ends, e: Event, added: bool): (r: Result<Ends>)
  {
    match w.me.state
    case Idle => Abort(SinprocC, 268)
    case Connecting =>
      if e == ReadyEv then OnReady(w, added) else Abort(SinprocC, 299)
    case Ready =>
      if e == ReadyEv then
        var p :- PipeStart(w.me.pipe, added);
        if !added then Abort(SinprocC, 315) else Ok(w.(me := w.me.(pipe := p, state := Active)))
      else if e == AcceptedEv then OnAccepted(w, added)
      else Abort(SinprocC, 334)
    case Active =>
      if e == SentEv then OnSent(w)
      else if e == ReceivedEv then OnReceived(w)
      else if e == DisconnectEv then OnDisconnect(w)
      else Abort(SinprocC, 386)
    case Disconnected =>
      if e == ReceivedEv then Ok(w) else Abort(SinprocC, 405)
    case _ => Abort(SinprocC, 415)
  }

  // ---------- shutdown ----------

  datatype Cause = StopAction | FromPeer(e: Event)

  function ShutdownEvents(w: Ends, c: Cause): (r: Result<Ends>)
  {
    if c == StopAction then
      if w.me.state != Idle && w.me.state != Disconnected then
        if !w.me.hasPeer then Abort(SinprocC, 168)
        else
          var w1 :- RaiseTo(w.(me := w.me.(pipe := PipeStop(w.me.pipe))), DisconnectEv);
          Ok(w1.(me := w1.me.(state := StoppingPeer)))
      else Ok(w.(me := w.me.(state := Stopping)))
    else if c.e == ReceivedEv then Ok(w)
    else if w.me.state == StoppingPeer then
      Ok(if c.e == DisconnectEv then w.(me := w.me.(state := Stopping)) else w)
    else Abort(SinprocC, 210)
  }

  function Shutdown(w: Ends, c: Cause): (r: Result<Ends>)
  {
    if w.me.fsm != FsmStopping then Abort(SinprocC, 223)
    else
      var w1 :- ShutdownEvents(w, c);
      if w1.me.state != Stopping then Ok(w1)
      else if ReceivedEv in w1.me.inbox || DisconnectEv in w1.me.inbox || w1.me.told then Ok(w1)
      else if ObjectQueued(w1, AcceptedEv) then Abort(SinprocC, 236)
      else if SentEv in w1.me.inbox then Abort(SinprocC, 237)
      else Ok(w1.(me := w1.me.(fsm := FsmIdle, stopped := w1.me.stopped + 1)))
  }

  /** A stop request is ignored unless the state machine is running. */
  function Stop(w: Ends): (r: Result<Ends>)
  {
    if w.me.fsm != FsmActive then Ok(w)
    else Shutdown(w.(me := w.me.(fsm := FsmStopping)), StopAction)
  }

  function TakeOff(q: seq<Event>, k: nat): seq<Event>
    requires k < |q|
  {
    q[..k] + q[k + 1..]
  }

  /** The state handed to the handler: the k-th event in flight is off the queue. */
  function Taken(w: Ends, k: nat): Ends
    requires k < |w.me.inbox|
  {
    w.(me := w.me.(inbox := TakeOff(w.me.inbox, k)))
  }

  /** Process the k-th event in flight.  `added` is what nn_sock_add answers if
      the handler starts the pipe. */
  function Deliver(w: Ends, k: nat, added: bool): (r: Result<Ends>)
    requires k < |w.me.inbox|
  {
    var e := w.me.inbox[k];
    if w.me.fsm == FsmStopping then Shutdown(Taken(w, k), FromPeer(e)) else Handler(Taken(w, k), e, added)
  }

  // ---------- creation ----------

  const FRESH_PIPE := Pipe(PIdle, InDeactivated, OutDeactivated, false, false, false, false)

  /** The end that connected: started, its CONNECT event consumed. */
  function Connected(maxmem: nat): Node
  {
    Node(true, FsmActive, Connecting, false, false, false, FRESH_PIPE, [], maxmem, EMPTY, [], false, 0, [], [])
  }

  /** The end created on CONNECT: it knows its peer, raises READY to it, starts
      and moves on to READY. */
  function Accept(peer: Node, maxmem: nat): (r: Result<Ends>)
  {
    var me := Node(false, FsmActive, Ready, false, false, true, FRESH_PIPE, [], maxmem, EMPTY, [], false, 0, [], []);
    RaiseTo(Ends(me, peer), ReadyEv)
  }

  // ---------- runs ----------

  datatype End = A | B

  datatype Pair = Pair(a: Node, b: Node)

  function View(p: Pair, x: End): Ends
  {
    if x == A then Ends(p.a, p.b) else Ends(p.b, p.a)
  }

  function Back(w: Ends, x: End): Pair
  {
    if x == A then Pair(w.me, w.peer) else Pair(w.peer, w.me)
  }

  datatype Step =
    | DoDeliver(x: End, k: nat, added: bool)
    | DoSend(x: End, m: Msg)
    | DoRecv(x: End)
    | DoTakeIn(x: End)
    | DoTakeOut(x: End)
    | DoOwner(x: End)
    | DoStop(x: End)

  /** What an end raised to its own socket or owner is still on its context's queue:
      the context is not left before that is processed, and nothing else gets in. */
  predicate Pending(n: Node)
  {
    n.told || n.pipe.inQueued || n.pipe.outQueued
  }

  /** When the surrounding program can take a step.  A socket sends only on a
      pipe it holds a grant for and that was not removed from it; it may still
      drain a pipe after a disconnect. */
  predicate Enabled(w: Ends, s: Step)
  {
    match s
    case DoDeliver(_, k, _) => !Pending(w.me) && k < |w.me.inbox|
    case DoSend(_, _) => !Pending(w.me) && w.me.state == Active && w.me.pipe.outGrant
    case DoRecv(_) => !Pending(w.me) && (w.me.state == Active || w.me.state == Disconnected) && w.me.pipe.inGrant
    case DoTakeIn(_) => w.me.pipe.inQueued
    case DoTakeOut(_) => w.me.pipe.outQueued
    case DoOwner(_) => w.me.told
    case DoStop(_) => !Pending(w.me)
  }

  function Apply(w: Ends, s: Step): (r: Result<Ends>)
    requires Enabled(w, s)
  {
    match s
    case DoDeliver(_, k, added) => Deliver(w, k, added)
    case DoSend(_, m) => PipeSend(w, m)
    case DoRecv(_) => PipeRecv(w)
    case DoTakeIn(_) => Ok(w.(me := w.me.(pipe := TakeIn(w.me.pipe))))
    case DoTakeOut(_) => Ok(w.(me := w.me.(pipe := TakeOut(w.me.pipe))))
    case DoOwner(_) => Ok(w.(me := w.me.(told := false)))
    case DoStop(_) => Stop(w)
  }

  /** A run skips the steps that are not enabled and ends at the first fault. */
  function Run(p: Pair, steps: seq<Step>): (r: Result<Pair>)
    decreases |steps|
  {
    if steps == [] then Ok(p)
    else if !Enabled(View(p, steps[0].x), steps[0]) then Run(p, steps[1..])
    else
      var w :- Apply(View(p, steps[0].x), steps[0]);
      Run(Back(w, steps[0].x), steps[1..])
  }

  /** Which events may arrive before one raised earlier: SENT and RECEIVED in either
      order, and DISCONNECT before RECEIVED. */
  predicate MayPass(e: Event, earlier: Event)
  {
    (e == SentEv && earlier == ReceivedEv) || (e == ReceivedEv && earlier == SentEv)
    || (e == DisconnectEv && earlier == ReceivedEv)
  }

  /** What a step needs.  A caller stops no end before its handshake is over, and
      the socket accepts the new pipe; and the event delivered passes only events
      that it may pass. */
  predicate Careful(w: Ends, s: Step)
  {
    match s
    case DoStop(_) => w.me.fsm == FsmActive ==> w.me.state != Connecting && w.me.state != Ready
    case DoDeliver(_, k, added) =>
      && (w.me.state == Connecting || w.me.state == Ready ==> added)
      && forall j | 0 <= j < k && k < |w.me.inbox| :: MayPass(w.me.inbox[k], w.me.inbox[j])
    case _ => true
  }

  predicate CarefulRun(p: Pair, steps: seq<Step>)
    decreases |steps|
  {
    steps == [] ||
    var x := steps[0].x;
    if !Enabled(View(p, x), steps[0]) then CarefulRun(p, steps[1..])
    else
      Careful(View(p, x), steps[0]) &&
      var w := Apply(View(p, x), steps[0]);
      w.Ok? ==> CarefulRun(Back(w.value, x), steps[1..])
  }
}
