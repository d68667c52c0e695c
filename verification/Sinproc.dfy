/** The session objects themselves: fields updated in place, the peer reached
    through a pointer, the queue in linked chunks.  Each method is tied to the
    function of module Session that gives its meaning; `ok` is false when the
    process stops at a fatal check. */
module Sinprocs {
  import opened Outcome
  import opened Messages
  import opened Session
  import opened MsgQueues

  class Pipebase {
    var state: PipeState
    var instate: InState
    var outstate: OutState
    var inQueued: bool
    var outQueued: bool
    var inGrant: bool
    var outGrant: bool

    ghost function Abs(): Pipe
      reads this
    {
      Pipe(state, instate, outstate, inQueued, outQueued, inGrant, outGrant)
    }

    constructor ()
      ensures Abs() == FRESH_PIPE
    {
      state, instate, outstate := PIdle, InDeactivated, OutDeactivated;
      inQueued, outQueued, inGrant, outGrant := false, false, false, false;
    }

    method Start(added: bool) returns (ok: bool)
      modifies this
      ensures ok <==> PipeStart(old(Abs()), added).Ok?
      ensures ok ==> PipeStart(old(Abs()), added) == Ok(Abs())
      ensures ok <==> old(state) == PIdle && (added ==> !old(outQueued))
      ensures ok ==> state == (if added then PActive else PFailed) && instate == InAsync && outstate == OutIdle
      ensures ok ==> outQueued == (added || old(outQueued)) && inQueued == old(inQueued)
    {
      if state != PIdle {
        return false;
      }
      state := PActive;
      instate := InAsync;
      outstate := OutIdle;
      if !added {
        state := PFailed;
        return true;
      }
      if outQueued {
        return false;
      }
      outQueued := true;
      return true;
    }

    method Stop()
      modifies this`state
      ensures Abs() == PipeStop(old(Abs())) && state == PIdle
    {
      state := PIdle;
    }

    method Received() returns (ok: bool)
      modifies this
      ensures ok <==> PipeReceived(old(Abs())).Ok?
      ensures ok ==> PipeReceived(old(Abs())) == Ok(Abs())
      ensures ok <==> old(instate) == InReceiving || (old(instate) == InAsync && !old(inQueued))
      ensures ok ==> if old(instate) == InReceiving then instate == InReceived && inQueued == old(inQueued)
                     else instate == InIdle && inQueued
    {
      if instate == InReceiving {
        instate := InReceived;
        return true;
      }
      if instate != InAsync || inQueued {
        return false;
      }
      instate := InIdle;
      inQueued := true;
      return true;
    }

    method Sent() returns (ok: bool)
      modifies this
      ensures ok <==> PipeSent(old(Abs())).Ok?
      ensures ok ==> PipeSent(old(Abs())) == Ok(Abs())
      ensures ok <==> old(outstate) == OutSending || (old(outstate) == OutAsync && !old(outQueued))
      ensures ok ==> if old(outstate) == OutSending then outstate == OutSent && outQueued == old(outQueued)
                     else outstate == OutIdle && outQueued
    {
      if outstate == OutSending {
        outstate := OutSent;
        return true;
      }
      if outstate != OutAsync || outQueued {
        return false;
      }
      outstate := OutIdle;
      outQueued := true;
      return true;
    }
  }

  class Sinproc {
    const connector: bool
    var fsm: FsmState
    var state: State
    var sending: bool
    var receiving: bool
    var peer: Sinproc?
    const pipe: Pipebase
    const queue: MsgQueue
    var msg: Msg
    var inbox: seq<Event>
    var told: bool
    var stopped: nat
    ghost var accepted: seq<Msg>
    ghost var delivered: seq<Msg>

    ghost function Abs(): Node
      reads this, pipe, queue
    {
      Node(connector, fsm, state, sending, receiving, peer != null, pipe.Abs(), queue.Contents, queue.maxmem,
           msg, inbox, told, stopped, accepted, delivered)
    }

    /** The objects this session owns. */
    ghost function Foot(): set<object>
      reads this, queue
    {
      {this, pipe, queue} + queue.Heap
    }

    /** Two whole sessions that share nothing and know at most each other. */
    ghost predicate Beside(other: Sinproc)
      reads this, other, queue, other.queue, queue.Heap, other.queue.Heap
    {
      && queue.Valid() && other.queue.Valid()
      && this != other && pipe != other.pipe && queue != other.queue && queue.Heap !! other.queue.Heap
      && (peer == null || peer == other) && (state == Active ==> peer != null)
    }

    ghost function Both(other: Sinproc): Ends
      reads this, other, pipe, other.pipe, queue, other.queue
    {
      Ends(Abs(), other.Abs())
    }

    /** The end that connected; its CONNECT event is taken as consumed. */
    constructor Connected(maxmem: nat)
      ensures Abs() == Session.Connected(maxmem) && queue.Valid() && fresh(Foot())
      ensures queue.maxmem == maxmem && queue.Contents == [] && state == Connecting && peer == null
    {
      connector, fsm, state := true, FsmActive, Connecting;
      sending, receiving, peer := false, false, null;
      pipe := new Pipebase();
      queue := new MsgQueue(maxmem);
      msg, inbox, told, stopped, accepted, delivered := EMPTY, [], false, 0, [], [];
    }

    /** The end created on CONNECT. */
    constructor Accepted(maxmem: nat, from: Sinproc)
      requires from.inbox == []
      modifies from`inbox
      ensures queue.Valid() && fresh(Foot()) && peer == from
      ensures Accept(old(from.Abs()), maxmem) == Ok(Ends(Abs(), from.Abs()))
      ensures queue.maxmem == maxmem && queue.Contents == [] && state == Ready && from.inbox == [ReadyEv]
    {
      hide MsgQueue.Valid;
      connector, fsm, state := false, FsmActive, Ready;
      sending, receiving, peer := false, false, from;
      pipe := new Pipebase();
      queue := new MsgQueue(maxmem);
      msg, inbox, told, stopped, accepted, delivered := EMPTY, [], false, 0, [], [];
      new;
      from.inbox := from.inbox + [ReadyEv];
    }

    // ---------- events ----------

    method RaiseTo(dst: Sinproc, e: Event) returns (ok: bool)
      requires this != dst
      modifies dst`inbox
      ensures ok <==> Session.RaiseTo(old(Both(dst)), e).Ok?
      ensures ok ==> Session.RaiseTo(old(Both(dst)), e) == Ok(Both(dst))
      ensures e in old(dst.inbox) || (e == DisconnectEv && dst.told) ==> !ok
      ensures e in {ReadyEv, AcceptedEv} && (ReadyEv in old(dst.inbox) || AcceptedEv in old(dst.inbox)) ==> !ok
      ensures ok ==> dst.inbox == old(dst.inbox) + [e]
      ensures !ok ==> e in dst.inbox || (e == DisconnectEv && dst.told)
                      || (e in {ReadyEv, AcceptedEv} && (ReadyEv in dst.inbox || AcceptedEv in dst.inbox))
    {
      var queued := match e
        case ReadyEv | AcceptedEv => ReadyEv in dst.inbox || AcceptedEv in dst.inbox
        case DisconnectEv => DisconnectEv in dst.inbox || dst.told
        case _ => e in dst.inbox;
      if queued {
        return false;
      }
      dst.inbox := dst.inbox + [e];
      return true;
    }

    method RaiseOwn(ghost other: Sinproc) returns (ok: bool)
      requires this != other
      modifies this`told
      ensures ok <==> Session.RaiseOwn(old(Both(other))).Ok?
      ensures ok ==> Session.RaiseOwn(old(Both(other))) == Ok(Both(other))
      ensures ok <==> DisconnectEv !in inbox && !old(told)
      ensures ok ==> told
    {
      if DisconnectEv in inbox || told {
        return false;
      }
      told := true;
      return true;
    }

    // ---------- send ----------

    /** `rc` is false for -ECONNRESET. */
    method Send(m: Msg, ghost other: Sinproc) returns (ok: bool, rc: bool)
      requires Beside(other)
      modifies this`msg, this`sending, this`accepted, pipe, other`inbox
      ensures ok <==> Session.Send(old(Both(other)), m).Ok?
      ensures ok ==> Session.Send(old(Both(other)), m) == Ok((Both(other), rc))
      ensures ok && rc ==> accepted == old(accepted) + [m] && Arrived(m, msg)
    {
      hide Pipebase.Abs;
      hide MsgQueue.Valid;
      if state == Disconnected {
        return true, false;
      }
      if state != Active || sending {
        return false, false;
      }
      msg := Flat(m);
      sending := true;
      accepted := accepted + [m];
      ok := RaiseTo(peer, SentEv);
      return ok, true;
    }

    method PipeSend(m: Msg, ghost other: Sinproc) returns (ok: bool)
      requires Beside(other)
      modifies this`msg, this`sending, this`accepted, pipe, other`inbox
      ensures ok <==> Session.PipeSend(old(Both(other)), m).Ok?
      ensures ok ==> Session.PipeSend(old(Both(other)), m) == Ok(Both(other))
      ensures ok ==> accepted == old(accepted) + [m] && Arrived(m, msg)
    {
      hide Session.Send, SendDone, MsgQueue.Valid;
      if pipe.outstate != OutIdle {
        return false;
      }
      ghost var w := Both(other);
      pipe.outstate := OutSending;
      assert Both(other) == SetOut(w, OutSending);
      var rc;
      ok, rc := Send(m, other);
      if !ok || !rc {
        return false;
      }
      ok := FinishSend(other);
    }

    method FinishSend(ghost other: Sinproc) returns (ok: bool)
      requires pipe != other.pipe
      modifies pipe
      ensures ok <==> SendDone(old(Both(other))).Ok?
      ensures ok ==> SendDone(old(Both(other))) == Ok(Both(other))
      ensures ok <==> old(pipe.outstate) == OutSent || old(pipe.outstate) == OutSending
      ensures ok ==> if old(pipe.outstate) == OutSent
                     then pipe.outstate == OutIdle && pipe.outGrant == old(pipe.outGrant)
                     else pipe.outstate == OutAsync && !pipe.outGrant
    {
      if pipe.outstate == OutSent {
        pipe.outstate := OutIdle;
        return true;
      }
      if pipe.outstate != OutSending {
        return false;
      }
      pipe.outstate := OutAsync;
      pipe.outGrant := false;
      return true;
    }

    // ---------- recv ----------

    method Announce(ghost other: Sinproc) returns (ok: bool)
      requires pipe != other.pipe
      modifies pipe
      ensures ok <==> Session.Announce(old(Both(other))).Ok?
      ensures ok ==> Session.Announce(old(Both(other))) == Ok(Both(other))
    {
      ok := pipe.Received();
    }

    /** Move the peer's mailbox to the back of the queue, if the queue takes it. */
    method TakeMailbox(ghost other: Sinproc) returns (rc: bool)
      requires Beside(other) && peer != null
      modifies queue, queue.Heap, other`msg
      ensures queue.Valid() && fresh(queue.Heap - old(queue.Heap))
      ensures !rc <==>
                && old(queue.Contents) != []
                && |Joined(old(queue.Contents))| + |old(other.msg.sphdr)| + |old(other.msg.body)| >= queue.maxmem
      ensures !rc ==> Both(other) == old(Both(other))
      ensures rc ==> Both(other) == old(var w := Both(other);
                       Ends(w.me.(queue := w.me.queue + [w.peer.msg]), w.peer.(msg := EMPTY)))
    {
      hide MsgQueue.Valid, Joined;
      rc := queue.Send(peer.msg);
      if rc {
        peer.msg := EMPTY;
      }
    }

    method Unpark(ghost other: Sinproc) returns (ok: bool)
      requires Beside(other) && (state == Active || state == Disconnected)
      modifies this`receiving, queue, queue.Heap, other`inbox, other`msg
      ensures queue.Valid() && fresh(queue.Heap - old(queue.Heap))
      ensures ok <==> Session.Unpark(old(Both(other))).Ok?
      ensures ok ==> Session.Unpark(old(Both(other))) == Ok(Both(other))
    {
      hide MsgQueue.Valid, Joined;
      if state == Disconnected || !receiving {
        return true;
      }
      var rc := TakeMailbox(other);
      if !rc {
        return true;
      }
      ok := RaiseTo(peer, ReceivedEv);
      receiving := false;
    }

    method TakeFirst(ghost other: Sinproc) returns (m: Option<Msg>)
      requires Beside(other)
      modifies this`delivered, queue
      ensures Beside(other) && queue.Heap <= old(queue.Heap)
      ensures m == None <==> old(queue.Contents) == []
      ensures m == None ==> Both(other) == old(Both(other))
      ensures m.Some? ==>
                && m.value == old(queue.Contents)[0]
                && Both(other) == old(var w := Both(other);
                     Ends(w.me.(queue := w.me.queue[1..], delivered := w.me.delivered + [w.me.queue[0]]), w.peer))
    {
      hide MsgQueue.Valid;
      m := queue.Recv();
      if m.Some? {
        delivered := delivered + [m.value];
      }
    }

    method Recv(ghost other: Sinproc) returns (ok: bool, m: Msg)
      requires Beside(other)
      modifies this`receiving, this`delivered, pipe, queue, queue.Heap, other`inbox, other`msg
      ensures ok <==> Session.Recv(old(Both(other))).Ok?
      ensures ok ==> Session.Recv(old(Both(other))) == Ok(Both(other))
      ensures ok ==> old(queue.Contents) != [] && m == old(queue.Contents)[0]
      ensures ok ==> queue.Valid() && fresh(queue.Heap - old(queue.Heap))
    {
      hide MsgQueue.NearlyValid, Pipebase.Abs;
      hide MsgQueue.Valid, Session.Unpark, Session.Announce;
      m := EMPTY;
      if state != Active && state != Disconnected {
        return false, m;
      }
      var r := TakeFirst(other);
      if r == None {
        return false, m;
      }
      m := r.value;
      ok := Unpark(other);
      if !ok {
        return;
      }
      var empty := queue.Empty();
      if !empty {
        ok := Announce(other);
      }
    }

    method PipeRecv(ghost other: Sinproc) returns (ok: bool, m: Msg)
      requires Beside(other)
      modifies this`receiving, this`delivered, pipe, queue, queue.Heap, other`inbox, other`msg
      ensures ok <==> Session.PipeRecv(old(Both(other))).Ok?
      ensures ok ==> Session.PipeRecv(old(Both(other))) == Ok(Both(other))
      ensures ok ==> old(queue.Contents) != [] && m == old(queue.Contents)[0]
      ensures ok ==> queue.Valid() && fresh(queue.Heap - old(queue.Heap))
    {
      hide MsgQueue.Valid, Session.Recv, RecvDone;
      m := EMPTY;
      if pipe.instate != InIdle {
        return false, m;
      }
      ghost var w := Both(other);
      pipe.instate := InReceiving;
      assert Both(other) == SetIn(w, InReceiving);
      ok, m := Recv(other);
      if !ok {
        return;
      }
      ok := FinishRecv(other);
    }

    method FinishRecv(ghost other: Sinproc) returns (ok: bool)
      requires pipe != other.pipe
      modifies pipe
      ensures ok <==> RecvDone(old(Both(other))).Ok?
      ensures ok ==> RecvDone(old(Both(other))) == Ok(Both(other))
      ensures ok <==> old(pipe.instate) == InReceived || old(pipe.instate) == InReceiving
      ensures ok ==> if old(pipe.instate) == InReceived then pipe.instate == InIdle && pipe.inGrant == old(pipe.inGrant)
                     else pipe.instate == InAsync && !pipe.inGrant
    {
      if pipe.instate == InReceived {
        pipe.instate := InIdle;
        return true;
      }
      if pipe.instate != InReceiving {
        return false;
      }
      pipe.instate := InAsync;
      pipe.inGrant := false;
      return true;
    }

    // ---------- the event handler ----------

    method OnReady(from: Sinproc, added: bool) returns (ok: bool)
      requires Beside(from)
      modifies this`peer, this`state, pipe, from`inbox
      ensures ok <==> Session.OnReady(old(Both(from)), added).Ok?
      ensures ok ==> peer == from && Session.OnReady(old(Both(from)), added) == Ok(Both(from))
      ensures ok ==> added && state == Active && pipe.state == PActive && from.inbox == old(from.inbox) + [AcceptedEv]
    {
      hide MsgQueue.Valid;
      peer := from;
      ok := pipe.Start(added);
      if !ok || !added {
        return false;
      }
      state := Active;
      ok := RaiseTo(peer, AcceptedEv);
    }

    method OnAccepted(added: bool, ghost other: Sinproc) returns (ok: bool)
      requires Beside(other)
      modifies this`peer, this`state, this`told, pipe
      ensures ok <==> Session.OnAccepted(old(Both(other)), added).Ok?
      ensures ok ==> Session.OnAccepted(old(Both(other)), added) == Ok(Both(other))
      ensures ok && added ==> state == Active && peer == old(peer) && pipe.state == PActive && told == old(told)
      ensures ok && !added ==> state == Disconnected && peer == null && pipe.state == PIdle && told
      ensures peer == null || peer == old(peer)
    {
      hide Pipebase.Abs;
      hide MsgQueue.Valid;
      ok := pipe.Start(added);
      if !ok {
        return;
      }
      if !added {
        pipe.Stop();
        state := Disconnected;
        peer := null;
        ok := RaiseOwn(other);
        return;
      }
      state := Active;
    }

    method OnSent(ghost other: Sinproc) returns (ok: bool)
      requires Beside(other) && state == Active
      modifies this`receiving, pipe, queue, queue.Heap, other`inbox, other`msg
      ensures queue.Valid() && fresh(queue.Heap - old(queue.Heap))
      ensures ok <==> Session.OnSent(old(Both(other))).Ok?
      ensures ok ==> Session.OnSent(old(Both(other))) == Ok(Both(other))
    {
      hide Pipebase.Abs, MsgQueue.Linked;
      hide MsgQueue.Valid, Joined, Session.Announce, Session.RaiseTo, MsgQueue.NearlyValid;
      var empty := queue.Empty();
      var rc := TakeMailbox(other);
      if !rc {
        receiving := true;
        return true;
      }
      if empty {
        ok := Announce(other);
        if !ok {
          return;
        }
      }
      ok := RaiseTo(peer, ReceivedEv);
    }

    method OnReceived(ghost other: Sinproc) returns (ok: bool)
      requires Beside(other)
      modifies this`sending, pipe
      ensures ok <==> Session.OnReceived(old(Both(other))).Ok?
      ensures ok ==> Session.OnReceived(old(Both(other))) == Ok(Both(other))
      ensures ok ==> old(sending) && !sending
    {
      hide MsgQueue.Valid;
      if !sending {
        return false;
      }
      ok := pipe.Sent();
      sending := false;
    }

    method OnDisconnect(ghost other: Sinproc) returns (ok: bool)
      requires Beside(other) && state == Active
      modifies this`peer, this`state, this`told, pipe, other`inbox
      ensures ok <==> Session.OnDisconnect(old(Both(other))).Ok?
      ensures ok ==> Session.OnDisconnect(old(Both(other))) == Ok(Both(other))
      ensures ok ==> state == Disconnected && peer == null && pipe.state == PIdle && told
      ensures ok ==> other.inbox == old(other.inbox) + [DisconnectEv]
      ensures peer == null || peer == old(peer)
    {
      hide Pipebase.Abs;
      hide MsgQueue.Valid, Session.RaiseTo, Session.RaiseOwn;
      pipe.Stop();
      ok := RaiseTo(peer, DisconnectEv);
      if !ok {
        return;
      }
      state := Disconnected;
      peer := null;
      ok := RaiseOwn(other);
    }

    method WhileReady(e: Event, added: bool, ghost other: Sinproc) returns (ok: bool)
      requires Beside(other) && state == Ready
      modifies this`peer, this`state, this`told, pipe
      ensures ok <==> Session.Handler(old(Both(other)), e, added).Ok?
      ensures ok ==> Session.Handler(old(Both(other)), e, added) == Ok(Both(other))
      ensures peer == null || peer == old(peer)
      ensures ok ==> e == ReadyEv || e == AcceptedEv
      ensures ok && added ==> state == Active && pipe.state == PActive && peer == old(peer)
      ensures ok && !added ==> e == AcceptedEv && state == Disconnected && pipe.state == PIdle && peer == null
    {
      hide MsgQueue.Valid, Session.OnAccepted, Session.PipeStart;
      if e == ReadyEv {
        ok := pipe.Start(added);
        if !ok || !added {
          return false;
        }
        state := Active;
      } else if e == AcceptedEv {
        ok := OnAccepted(added, other);
      } else {
        return false;
      }
    }

    method WhileActive(e: Event, other: Sinproc) returns (ok: bool)
      requires Beside(other) && state == Active
      modifies this, pipe, queue, queue.Heap, other`inbox, other`msg
      ensures queue.Valid() && fresh(queue.Heap - old(queue.Heap))
      ensures ok <==> Session.Handler(old(Both(other)), e, true).Ok?
      ensures ok ==> Session.Handler(old(Both(other)), e, true) == Ok(Both(other))
      ensures ok ==> peer == null || peer == other
      ensures ok ==> e == SentEv || e == ReceivedEv || e == DisconnectEv
    {
      hide MsgQueue.Valid, Session.OnSent, Session.OnReceived, Session.OnDisconnect;
      match e {
        case SentEv => ok := OnSent(other);
        case ReceivedEv => ok := OnReceived(other);
        case DisconnectEv => ok := OnDisconnect(other);
        case _ => return false;
      }
    }

    /** `from` is the srcptr of the event. */
    method Handler(e: Event, from: Sinproc, added: bool) returns (ok: bool)
      requires Beside(from)
      modifies this, pipe, queue, queue.Heap, from`inbox, from`msg
      ensures queue.Valid() && fresh(queue.Heap - old(queue.Heap))
      ensures ok <==> Session.Handler(old(Both(from)), e, added).Ok?
      ensures ok ==> Session.Handler(old(Both(from)), e, added) == Ok(Both(from))
      ensures ok ==> peer == null || peer == from
      ensures ok ==> match old(state)
                case Connecting => e == ReadyEv && added && state == Active && peer == from
                case Ready => e == ReadyEv || e == AcceptedEv
                case Active => e == SentEv || e == ReceivedEv || e == DisconnectEv
                case Disconnected => e == ReceivedEv && Both(from) == old(Both(from))
                case _ => false
    {
      hide MsgQueue.Valid, Session.OnReady, Session.OnSent, Session.OnReceived, Session.OnDisconnect;
      match state {
        case Idle => return false;
        case Connecting =>
          if e != ReadyEv {
            return false;
          }
          ok := OnReady(from, added);
        case Ready => ok := WhileReady(e, added, from);
        case Active => ok := WhileActive(e, from);
        case Disconnected => ok := e == ReceivedEv;
        case _ => return false;
      }
    }

    // ---------- shutdown ----------

    method ShutdownEvents(c: Cause, ghost other: Sinproc) returns (ok: bool)
      requires Beside(other)
      modifies this`state, pipe, other`inbox
      ensures ok <==> Session.ShutdownEvents(old(Both(other)), c).Ok?
      ensures ok ==> Session.ShutdownEvents(old(Both(other)), c) == Ok(Both(other))
      ensures ok && c == StopAction ==> state == if old(state) in {Idle, Disconnected} then Stopping else StoppingPeer
      ensures ok && c != StopAction ==> state == if old(state) == StoppingPeer && c.e == DisconnectEv then Stopping
                                                 else old(state)
    {
      hide Pipebase.Abs;
      hide MsgQueue.Valid;
      if c == StopAction {
        if state != Idle && state != Disconnected {
          pipe.Stop();
          if peer == null {
            return false;
          }
          ok := RaiseTo(peer, DisconnectEv);
          state := StoppingPeer;
        } else {
          state := Stopping;
          ok := true;
        }
        return;
      }
      if c.e == ReceivedEv {
        return true;
      }
      if state != StoppingPeer {
        return false;
      }
      if c.e == DisconnectEv {
        state := Stopping;
      }
      return true;
    }

    method Shutdown(c: Cause, other: Sinproc) returns (ok: bool)
      requires Beside(other)
      modifies this`state, this`fsm, this`stopped, pipe, other`inbox
      ensures ok <==> Session.Shutdown(old(Both(other)), c).Ok?
      ensures ok ==> Session.Shutdown(old(Both(other)), c) == Ok(Both(other))
      ensures ok ==> (fsm == FsmIdle <==>
                        state == Stopping && ReceivedEv !in inbox && DisconnectEv !in inbox && !told)
      ensures ok ==> stopped == old(stopped) + if fsm == FsmIdle then 1 else 0
    {
      hide Pipebase.Abs;
      hide MsgQueue.Valid, Session.ShutdownEvents;
      if fsm != FsmStopping {
        return false;
      }
      ok := ShutdownEvents(c, other);
      if !ok || state != Stopping {
        return;
      }
      if ReceivedEv in inbox || DisconnectEv in inbox || told {
        return;
      }
      if ReadyEv in other.inbox || AcceptedEv in other.inbox || SentEv in inbox {
        return false;
      }
      fsm := FsmIdle;
      stopped := stopped + 1;
    }

    method Stop(other: Sinproc) returns (ok: bool)
      requires Beside(other)
      modifies this`state, this`fsm, this`stopped, pipe, other`inbox
      ensures ok <==> Session.Stop(old(Both(other))).Ok?
      ensures ok ==> Session.Stop(old(Both(other))) == Ok(Both(other))
    {
      hide MsgQueue.Valid, Session.Shutdown;
      if fsm != FsmActive {
        return true;
      }
      ghost var w := Both(other);
      fsm := FsmStopping;
      assert Both(other) == w.(me := w.me.(fsm := FsmStopping));
      ok := Shutdown(StopAction, other);
    }

    /** Take an event in flight off its queue and feed it to the state machine. */
    method Deliver(other: Sinproc, k: nat, added: bool) returns (ok: bool)
      requires Beside(other) && k < |inbox|
      modifies this, pipe, queue, queue.Heap, other`inbox, other`msg
      ensures queue.Valid() && fresh(queue.Heap - old(queue.Heap))
      ensures ok <==> Session.Deliver(old(Both(other)), k, added).Ok?
      ensures ok ==> Session.Deliver(old(Both(other)), k, added) == Ok(Both(other))
      ensures ok ==> peer == null || peer == other
    {
      hide MsgQueue.Valid, Session.Handler, Session.Shutdown;
      ghost var w := Both(other);
      var e := inbox[k];
      inbox := inbox[..k] + inbox[k + 1..];
      assert Both(other) == Taken(w, k);
      if fsm == FsmStopping {
        ok := Shutdown(FromPeer(e), other);
      } else {
        ok := Handler(e, other, added);
      }
    }
  }
}
