/** The life of a socket: its endpoints, its pipes, its holders, and the shutdown
    that has to see them all off before the protocol is destroyed. */
module Socks {
  import opened Outcome
  import opened Seqs

  datatype State = Active | StoppingEps | Stopping | Fini

  /** What reaches the state machine of the socket: the IN or OUT of a pipe of an
      endpoint, the last word of an endpoint, the last word of the protocol. */
  datatype Event = PipeEvent(ep: nat) | EpStopped(ep: nat) | SockStopped

  datatype PipeState = PipeIdle | PipeActive | PipeFailed

  datatype Pipe = Pipe(ep: nat, state: PipeState)

  /** `asked`, `destroyed`, `posted` and `released` count the calls of the
      protocol's stop and destroy and the posts of termsem and relesem; `freed`
      are the endpoints already gone. `hasStop` says whether the protocol has a
      stop function. */
  datatype Sock = Sock(
    state: State, stopping: bool, hasStop: bool,
    eps: seq<nat>, sdeps: seq<nat>, freed: seq<nat>, eid: nat,
    pipes: map<nat, Pipe>, connections: int, holds: int, events: seq<Event>,
    asked: nat, destroyed: nat, posted: nat, released: nat)

  /** The socket as nn_sock_init leaves it: started, held by its creator. */
  function Created(hasStop: bool): Sock
  {
    Sock(Active, false, hasStop, [], [], [], 1, map[], 0, 1, [], 0, 0, 0, 0)
  }

  // ---------- calls ----------

  /** `up` tells whether the endpoint could be initialised. */
  function AddEp(s: Sock, up: bool): Sock
  {
    if !up then s else s.(eps := s.eps + [s.eid], eid := s.eid + 1)
  }

  function EmEp(s: Sock, ep: nat): Sock
  {
    if ep !in s.eps then s
    else s.(eps := Without(s.eps, ep), sdeps := s.sdeps + [ep])
  }

  /** Whether send, recv and hold are let in; they answer -EBADF otherwise. */
  predicate Usable(s: Sock)
  {
    s.state == Active
  }

  function Hold(s: Sock): Sock
  {
    if Usable(s) then s.(holds := s.holds + 1) else s
  }

  function Rele(s: Sock): Sock
  {
    s.(holds := s.holds - 1, released := if s.holds - 1 == 0 then s.released + 1 else s.released)
  }

  /** nn_pipebase_start: `taken` is whether the protocol accepts the pipe. */
  function StartPipe(s: Sock, pipe: nat, ep: nat, taken: bool): Result<Sock>
  {
    if pipe in s.pipes && s.pipes[pipe].state != PipeIdle then Abort(PipeC, 55)
    else if taken then
      Ok(s.(pipes := s.pipes[pipe := Pipe(ep, PipeActive)],
            connections := s.connections + 1,
            events := s.events + [PipeEvent(ep)]))
    else Ok(s.(pipes := s.pipes[pipe := Pipe(ep, PipeFailed)]))
  }

  /** nn_pipebase_stop. */
  function StopPipe(s: Sock, pipe: nat): Result<Sock>
  {
    if pipe !in s.pipes then Ok(s)
    else if s.pipes[pipe].state != PipeActive then
      Ok(s.(pipes := s.pipes[pipe := s.pipes[pipe].(state := PipeIdle)]))
    else if s.connections < 1 then Abort(SockC, 924)
    else
      Ok(s.(pipes := s.pipes[pipe := s.pipes[pipe].(state := PipeIdle)],
            connections := s.connections - 1))
  }

  // ---------- the state machine ----------

  /** The label finish1: the protocol is destroyed. */
  function Destroy(s: Sock): Sock
  {
    s.(destroyed := s.destroyed + 1, state := Fini, posted := s.posted + 1)
  }

  /** The label finish2: with the last endpoint gone the protocol is stopped. */
  function EpsGone(s: Sock): Result<Sock>
  {
    if s.sdeps != [] then Ok(s)
    else if s.eps != [] then Abort(SockC, 775)
    else if !s.hasStop then Ok(Destroy(s))
    else Ok(s.(state := Stopping, asked := s.asked + 1))
  }

  function FreeEp(s: Sock, ep: nat): Result<Sock>
  {
    if ep !in s.sdeps then Abort(ListC, 68)
    else Ok(s.(sdeps := Without(s.sdeps, ep), freed := s.freed + [ep]))
  }

  /** nn_sock_stop; a state machine that is stopping already ignores it. */
  function Stop(s: Sock): Result<Sock>
  {
    if s.stopping then Ok(s)
    else if s.state != Active then Abort(SockC, 743)
    else EpsGone(s.(stopping := true, eps := [], sdeps := s.sdeps + s.eps, state := StoppingEps))
  }

  function Shutdown(s: Sock, e: Event): Result<Sock>
  {
    match s.state
    case StoppingEps => if e.EpStopped? then (var t :- FreeEp(s, e.ep); EpsGone(t)) else Ok(s)
    case Stopping => if e == SockStopped then Ok(Destroy(s)) else Abort(SockC, 784)
    case _ => Abort(SockC, 794)
  }

  function Handler(s: Sock, e: Event): Result<Sock>
  {
    if s.state != Active then Abort(SockC, 852)
    else match e
      case EpStopped(ep) => FreeEp(s, ep)
      case PipeEvent(_) => Ok(s)
      case SockStopped => Abort(SockC, 824)
  }

  function Feed(s: Sock, e: Event): Result<Sock>
  {
    if s.stopping then Shutdown(s, e) else Handler(s, e)
  }

  // ---------- runs ----------

  datatype Op =
    | DoAddEp(up: bool)
    | DoEmEp(ep: nat)
    | DoHold
    | DoRele
    | DoStop
    | DoStartPipe(pipe: nat, ep: nat, taken: bool)
    | DoStopPipe(pipe: nat)
    | PipeRaises(ep: nat)
    | EpReports(ep: nat)
    | ProtocolReports
    | Dispatch

  /** An endpoint that exists and has not said its last word. */
  predicate Live(s: Sock, ep: nat)
  {
    (ep in s.eps || ep in s.sdeps) && EpStopped(ep) !in s.events
  }

  predicate Attached(s: Sock, pipe: nat)
  {
    pipe in s.pipes && s.pipes[pipe].state == PipeActive
  }

  /** What endpoints and protocols do: pipes belong to a live endpoint, an endpoint
      told to stop reports once, after its pipes have stopped, and a protocol told
      to stop reports once. */
  ghost predicate Enabled(s: Sock, op: Op)
  {
    match op
    case DoStartPipe(_, ep, _) => Live(s, ep)
    case PipeRaises(ep) => Live(s, ep)
    case EpReports(ep) =>
      ep in s.sdeps && Live(s, ep) && forall p | Attached(s, p) :: s.pipes[p].ep != ep
    case ProtocolReports => s.state == Stopping && SockStopped !in s.events
    case Dispatch => s.events != []
    case _ => true
  }

  /** What the callers owe: no endpoint is added once the socket is stopping, and
      only idle pipes are started. */
  predicate Careful(s: Sock, op: Op)
  {
    && (op == DoAddEp(true) ==> !s.stopping)
    && (op.DoStartPipe? && op.pipe in s.pipes ==> s.pipes[op.pipe].state == PipeIdle)
  }

  function Apply(s: Sock, op: Op): Result<Sock>
  {
    match op
    case DoAddEp(up) => Ok(AddEp(s, up))
    case DoEmEp(ep) => Ok(EmEp(s, ep))
    case DoHold => Ok(Hold(s))
    case DoRele => Ok(Rele(s))
    case DoStop => Stop(s)
    case DoStartPipe(pipe, ep, taken) => StartPipe(s, pipe, ep, taken)
    case DoStopPipe(pipe) => StopPipe(s, pipe)
    case PipeRaises(ep) => Ok(s.(events := s.events + [PipeEvent(ep)]))
    case EpReports(ep) => Ok(s.(events := s.events + [EpStopped(ep)]))
    case ProtocolReports => Ok(s.(events := s.events + [SockStopped]))
    case Dispatch => if s.events == [] then Ok(s) else Feed(s.(events := s.events[1..]), s.events[0])
  }

  function Run(s: Sock, ops: seq<Op>): Result<Sock>
    decreases |ops|
  {
    if ops == [] then Ok(s) else (var t :- Apply(s, ops[0]); Run(t, ops[1..]))
  }

  /** Every step is enabled, and careful if `careful` is set. */
  ghost predicate Legal(s: Sock, ops: seq<Op>, careful: bool)
    decreases |ops|
  {
    ops == [] ||
    (Enabled(s, ops[0]) && (careful ==> Careful(s, ops[0])) &&
     (Apply(s, ops[0]).Ok? ==> Legal(Apply(s, ops[0]).value, ops[1..], careful)))
  }

  // ---------- the invariant ----------

  ghost function AttachedPipes(s: Sock): set<nat>
  {
    set p | p in s.pipes && s.pipes[p].state == PipeActive
  }

  /** In how many places an endpoint is. */
  ghost function Places(s: Sock, ep: nat): nat
  {
    multiset(s.eps)[ep] + multiset(s.sdeps)[ep] + multiset(s.freed)[ep]
  }

  /** Every endpoint ever added is in one place, and nothing else is. */
  ghost predicate EndpointsInv(s: Sock)
  {
    && s.eid >= 1
    && forall e: nat :: Places(s, e) == if 1 <= e < s.eid then 1 else 0
  }

  /** An endpoint's events are in the queue only while it exists, its last word
      once, and nothing behind it. */
  ghost predicate EventsInv(s: Sock)
  {
    && (forall e | e in s.events && e.PipeEvent? :: e.ep in s.eps || e.ep in s.sdeps)
    && (forall e | e in s.events && e.EpStopped? :: e.ep in s.sdeps)
    && (forall i, j | 0 <= i < j < |s.events| && s.events[i].EpStopped? ::
          s.events[j].SockStopped? || s.events[j].ep != s.events[i].ep)
    && (SockStopped in s.events ==> s.state == Stopping && |s.events| == 1)
  }

  ghost predicate PipesInv(s: Sock)
  {
    && s.connections == |AttachedPipes(s)|
    && (forall p | Attached(s, p) :: Live(s, s.pipes[p].ep))
  }

  ghost predicate PhaseInv(s: Sock)
  {
    && (s.stopping <==> s.state != Active)
    && (s.stopping ==> s.eps == [])
    && (s.state == StoppingEps ==> s.sdeps != [])
    && (s.state == Stopping ==> s.sdeps == [] && s.hasStop)
    && (s.state == Fini ==> s.sdeps == [] && s.events == [])
    && s.destroyed == s.posted == (if s.state == Fini then 1 else 0)
    && s.asked == if s.hasStop && s.state in {Stopping, Fini} then 1 else 0
  }

  ghost predicate Inv(s: Sock)
  {
    EndpointsInv(s) && EventsInv(s) && PipesInv(s) && PhaseInv(s)
  }
}
