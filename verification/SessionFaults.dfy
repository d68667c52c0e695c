/** What happens when a move is made that is not due: for every such move there are due
    moves that lead into a fatal check. */
module SessionFaults {
  import opened Outcome
  import opened Messages
  import opened Session
  import opened SessionInvariant
  import opened SessionTheorems
  import opened SessionQueues
  import opened SessionHolding
  import Seqs

  // ---------- runs that fail ----------

  /** Due moves that end in a fatal check. */
  ghost predicate Fails(t: Program, moves: seq<Move>)
  {
    DueRun(t, moves) && Moves(t, moves).Abort?
  }

  function After(t: Program, m: Move): Program
  {
    if Possible(t, m) && Do(t, m).Ok? then Do(t, m).value else t
  }

  /** A move that is due, or skipped, and what then fails. */
  lemma FailsThen(t: Program, m: Move, rest: seq<Move>)
    requires Possible(t, m) ==> Due(t, m)
    requires (Possible(t, m) && Do(t, m).Abort?) || Fails(After(t, m), rest)
    ensures Fails(t, [m] + rest)
  {
    hide Possible, Due, Do;
    assert ([m] + rest)[1..] == rest;
  }

  // ---------- what a move makes ----------

  /** Everything in flight after v, which pushed n, was made of what the code sees. */
  lemma Resumes(w: Ends, v: Ends, g: set<Event>, n: seq<Event>)
    requires v.peer.inbox == Rest(w.peer.inbox, g) + n
    ensures Resume(w, v, g) == Ends(v.me.(inbox := w.me.inbox), v.peer.(inbox := w.peer.inbox + n))
  {
    hide Rest;
  }

  function Holding(t: Program, x: End, e: Event): Program
  {
    With(t, x, Flight(t, x), Held(t, x) + {e})
  }

  /** Whether e was queued or held, now it is held. */
  lemma HoldMakes(t: Program, x: End, e: Event)
    requires e in Flight(t, x).me.inbox
    ensures After(t, Hold(x, e)) == Holding(t, x, e)
  {
    RestIn(Flight(t, x).me.inbox, Held(t, x));
    hide Rest;
    if e in Held(t, x) {
      assert Held(t, x) + {e} == Held(t, x);
    }
  }

  /** What the end raised to itself is processed, if there is something. */
  function Drained(w: Ends, s: Step): Ends
    requires s.DoTakeIn? || s.DoTakeOut? || s.DoOwner?
  {
    match s
    case DoTakeIn(_) => if w.me.pipe.inQueued then w.(me := w.me.(pipe := TakeIn(w.me.pipe))) else w
    case DoTakeOut(_) => if w.me.pipe.outQueued then w.(me := w.me.(pipe := TakeOut(w.me.pipe))) else w
    case DoOwner(_) => w.(me := w.me.(told := false))
  }

  lemma DrainSeen(w: Ends, h: set<Event>, g: set<Event>, s: Step)
    requires s.DoTakeIn? || s.DoTakeOut? || s.DoOwner?
    ensures Enabled(Seen(w, h, g), s) ==> Apply(Seen(w, h, g), s) == Ok(Seen(Drained(w, s), h, g))
    ensures !Enabled(Seen(w, h, g), s) ==> Drained(w, s) == w
  {
    hide Rest;
  }

  lemma ResumeSeen(w: Ends, u: Ends, h: set<Event>, g: set<Event>)
    requires u.me.inbox == w.me.inbox && u.peer.inbox == w.peer.inbox
    ensures Resume(w, Seen(u, h, g), g) == u
  {
    hide Rest;
  }

  lemma WithSame(t: Program, x: End)
    ensures With(t, x, Flight(t, x), Held(t, x)) == t
  {
  }

  lemma DrainedKeeps(w: Ends, s: Step)
    requires s.DoTakeIn? || s.DoTakeOut? || s.DoOwner?
    ensures Drained(w, s).me.inbox == w.me.inbox && Drained(w, s).peer == w.peer
  {
  }

  lemma DrainMakes(t: Program, s: Step)
    requires s.DoTakeIn? || s.DoTakeOut? || s.DoOwner?
    ensures After(t, Call(s)) == With(t, s.x, Drained(Flight(t, s.x), s), Held(t, s.x))
    ensures Possible(t, Call(s)) ==> Due(t, Call(s)) && Do(t, Call(s)).Ok?
  {
    hide Seen, Resume, Drained, Apply, Enabled, With;
    var w, h, g := Flight(t, s.x), Held(t, s.x), Held(t, Other(s.x));
    DrainSeen(w, h, g, s);
    DrainedKeeps(w, s);
    ResumeSeen(w, Drained(w, s), h, g);
    WithSame(t, s.x);
  }

  function Draining(y: End, rest: seq<Move>): seq<Move>
  {
    [Call(DoTakeIn(y))] + ([Call(DoTakeOut(y))] + rest)
  }

  /** The pipe of y has told its socket everything. */
  function Emptied(t: Program, y: End): Program
  {
    With(t, y, Drained(Drained(Flight(t, y), DoTakeIn(y)), DoTakeOut(y)), Held(t, y))
  }

  lemma EmptiedIs(t: Program, y: End)
    ensures var u := Emptied(t, y);
            && Flight(u, y).peer == Flight(t, y).peer
            && Flight(u, y).me == Flight(t, y).me.(pipe := Flight(u, y).me.pipe)
            && !Flight(u, y).me.pipe.inQueued && !Flight(u, y).me.pipe.outQueued
            && Held(u, y) == Held(t, y) && Held(u, Other(y)) == Held(t, Other(y))
  {
  }

  lemma DrainFirst(t: Program, y: End, rest: seq<Move>)
    requires Fails(Emptied(t, y), rest)
    ensures Fails(t, Draining(y, rest))
  {
    hide Possible, Do, Due, Fails, After;
    var w := Flight(t, y);
    var w1 := Drained(w, DoTakeIn(y));
    var t1 := With(t, y, w1, Held(t, y));
    DrainMakes(t, DoTakeIn(y));
    WithIs(t, y, w1, Held(t, y));
    DrainMakes(t1, DoTakeOut(y));
    FailsThen(t1, Call(DoTakeOut(y)), rest);
    FailsThen(t, Call(DoTakeIn(y)), [Call(DoTakeOut(y))] + rest);
  }

  // ---------- an end that can take no more ----------

  /** Whatever it finds, e is fatal to an end like this. */
  predicate Deaf(n: Node, e: Event)
  {
    (n.state == Disconnected && n.fsm == FsmActive && e != ReceivedEv)
    || (n.state == Stopping && n.fsm == FsmIdle)
    || (n.state == Stopping && n.fsm == FsmStopping && e != ReceivedEv)
  }

  predicate InTurnAt(q: seq<Event>, k: nat)
    requires k < |q|
  {
    forall j | 0 <= j < k :: MayPass(q[k], q[j])
  }

  /** It is in flight, and in its turn. */
  predicate Comes(q: seq<Event>, e: Event)
  {
    e in q && InTurnAt(q, Seqs.Find(q, e))
  }

  function Letting(x: End, e: Event): seq<Move>
  {
    [Hold(x, e)] + ([Call(DoOwner(x))] + ([Enter(x, e, true)] + []))
  }

  lemma DeafIs(w: Ends, e: Event)
    requires Deaf(w.me, e)
    ensures Process(w, e, true).Abort?
  {
  }

  lemma DeafEnters(t: Program, x: End, e: Event)
    requires var n := Flight(t, x).me; Deaf(n, e) && Comes(n.inbox, e) && !Pending(n) && e in Held(t, x)
    ensures Fails(t, [Enter(x, e, true)] + [])
  {
    hide Rest, Process, DueRun, Moves;
    DeafIs(Queues(t, x), e);
    FailsThen(t, Enter(x, e, true), []);
  }

  lemma DeafFaults(t: Program, x: End, e: Event)
    requires var n := Flight(t, x).me; Deaf(n, e) && Comes(n.inbox, e) && !n.pipe.inQueued && !n.pipe.outQueued
    ensures Fails(t, Letting(x, e))
  {
    hide Fails, After, Possible, Do, Due, Comes;
    var w := Flight(t, x);
    var t1 := Holding(t, x, e);
    HoldMakes(t, x, e) by { ComesIsIn(w.me.inbox, e); }
    WithIs(t, x, w, Held(t, x) + {e});
    var w2 := Drained(w, DoOwner(x));
    var t2 := With(t1, x, w2, Held(t1, x));
    DrainMakes(t1, DoOwner(x));
    WithIs(t1, x, w2, Held(t1, x));
    DeafEnters(t2, x, e);
    FailsThen(t1, Call(DoOwner(x)), [Enter(x, e, true)] + []);
    HoldIsDue(t, x, e);
    FailsThen(t, Hold(x, e), [Call(DoOwner(x))] + ([Enter(x, e, true)] + []));
  }

  lemma ComesIsIn(q: seq<Event>, e: Event)
    requires Comes(q, e)
    ensures e in q
  {
  }

  lemma HoldIsDue(t: Program, x: End, e: Event)
    ensures Due(t, Hold(x, e))
  {
  }

  // ---------- DISCONNECT that is entered too soon ----------

  /** An active end or one that waits for its peer, when it enters DISCONNECT. */
  predicate Listens(n: Node)
  {
    (n.state == Active && n.fsm == FsmActive) || (n.state == StoppingPeer && n.fsm == FsmStopping)
  }

  lemma DisconnectLeaves(w: Ends, added: bool)
    requires Listens(w.me) && !Pending(w.me) && Process(w, DisconnectEv, added).Ok?
    ensures var v := Process(w, DisconnectEv, added).value;
            && !v.me.pipe.inQueued && !v.me.pipe.outQueued && v.peer.inbox[..|w.peer.inbox|] == w.peer.inbox
            && (w.me.state == Active ==> v.me.state == Disconnected && v.me.fsm == FsmActive)
            && (w.me.state == StoppingPeer ==> v.me.state == Stopping && v.me.fsm != FsmActive)
            && (w.me.state == StoppingPeer && ReceivedEv !in w.me.inbox && DisconnectEv !in w.me.inbox ==>
                  v.me.fsm == FsmIdle)
  {
  }

  /** Entered before e, for which it should have waited. */
  predicate TooSoon(t: Program, x: End, e: Event)
  {
    var n := Flight(t, x).me;
    && Listens(n) && DisconnectEv in n.inbox && e != DisconnectEv
    && Comes(TakeOff(n.inbox, Seqs.Find(n.inbox, DisconnectEv)), e)
    && (e == ReceivedEv ==> n.state == StoppingPeer && ReceivedEv in Held(t, x))
  }

  lemma OnceHeld(q: seq<Event>, h: set<Event>)
    ensures forall e | e in h :: e !in Rest(q, h)
  {
    RestIn(q, h);
  }

  lemma DisconnectFaults(t: Program, x: End, e: Event, added: bool)
    requires TooSoon(t, x, e) && Possible(t, Enter(x, DisconnectEv, added))
    ensures var m := Enter(x, DisconnectEv, added);
            Do(t, m).Ok? ==> Fails(Do(t, m).value, Letting(x, e))
  {
    var m := Enter(x, DisconnectEv, added);
    var w, g, v := Flight(t, x), Held(t, Other(x)), Queues(t, x);
    OnceHeld(w.me.inbox, Held(t, x));
    hide Rest, Process, Fails, Letting, Pending, Resume, TakeOff, Comes;
    if Do(t, m).Ok? {
      PendingSeen(w, Held(t, x), g);
      DisconnectLeaves(v, added);
      var r := Process(v, DisconnectEv, added).value;
      var u := Taken(w, Seqs.Find(w.me.inbox, DisconnectEv));
      ResumeKeeps(u, r, g);
      WithIs(t, x, Resume(u, r, g), Held(t, x) - {DisconnectEv});
      DeafFaults(Do(t, m).value, x, e);
    }
  }

  lemma PendingSeen(w: Ends, h: set<Event>, g: set<Event>)
    ensures Pending(Seen(w, h, g).me) == Pending(w.me)
  {
  }

  lemma ResumeKeeps(w: Ends, v: Ends, g: set<Event>)
    ensures Resume(w, v, g).me == v.me.(inbox := w.me.inbox)
  {
  }

  /** An end past its handshake that owes something for an event owes to wait. */
  lemma UndueEvent(t: Program, w: Ends, x: End, e: Event, added: bool)
    requires w.me == Flight(t, x).me && Control(w) && !Handshaking(w.me) && !Late(w.me)
    requires e in w.me.inbox && forall f | f in Held(t, x) :: f in w.me.inbox
    requires !Due(t, Enter(x, e, added))
    ensures e == DisconnectEv && exists f :: TooSoon(t, x, f)
  {
    var k := Seqs.Find(w.me.inbox, e);
    var q := TakeOff(w.me.inbox, k);
    if !InTurnAt(w.me.inbox, k) {
      OutOfTurn(w, k);
      PassesIs(q, SentEv) by { TidyRest(w, k); }
      assert TooSoon(t, x, SentEv);
    } else {
      HoldsBackIs(w, k, added, Held(t, x), x);
      PassesIs(q, ReceivedEv) by { TidyRest(w, k); }
      assert TooSoon(t, x, ReceivedEv);
    }
  }

  lemma TidyRest(w: Ends, k: nat)
    requires Control(w) && k < |w.me.inbox|
    ensures Tidy(TakeOff(w.me.inbox, k)) && Tidy(w.me.inbox)
  {
    Pop(w.me.inbox, k);
  }

  /** Between SENT and RECEIVED any order will do. */
  lemma PassesIs(q: seq<Event>, e: Event)
    requires e == SentEv || e == ReceivedEv
    requires Tidy(q) && e in q && forall f | f in q :: f == SentEv || f == ReceivedEv
    ensures Comes(q, e)
  {
    var k := Seqs.Find(q, e);
    assert forall j | 0 <= j < k :: q[j] in q && q[j] != e;
  }

  /** Out of turn past the handshake: a DISCONNECT that passes SENT. */
  lemma OutOfTurn(w: Ends, k: nat)
    requires Control(w) && k < |w.me.inbox| && !InTurnAt(w.me.inbox, k) && w.me.state != Ready
    ensures w.me.inbox[k] == DisconnectEv && SentEv in TakeOff(w.me.inbox, k) && Listens(w.me)
    ensures forall e | e in TakeOff(w.me.inbox, k) :: e == SentEv || e == ReceivedEv
  {
  }

  lemma HoldsBackIs(w: Ends, k: nat, added: bool, h: set<Event>, x: End)
    requires Control(w) && k < |w.me.inbox| && forall f | f in h :: f in w.me.inbox
    requires !Handshaking(w.me) && InTurnAt(w.me.inbox, k)
    requires !(Careful(w, DoDeliver(x, k, added)) && !HoldsBack(w, DoDeliver(x, k, added), h))
    ensures w.me.inbox[k] == DisconnectEv && w.me.state == StoppingPeer && Listens(w.me)
    ensures ReceivedEv in h && ReceivedEv in TakeOff(w.me.inbox, k)
    ensures forall e | e in TakeOff(w.me.inbox, k) :: e == SentEv || e == ReceivedEv
  {
    Pop(w.me.inbox, k);
    assert forall i | 0 <= i < |w.me.inbox| :: w.me.inbox[i] in w.me.inbox;
  }

  // ---------- moves that are not due, past the handshake ----------

  /** A disconnected end whose RECEIVED a thread holds is stopped. */
  lemma StopFaults(t: Program, x: End)
    requires var n := Flight(t, x).me;
             && n.state == Disconnected && n.fsm == FsmActive && n.inbox == [ReceivedEv] && ReceivedEv in Held(t, x)
    requires Possible(t, Call(DoStop(x)))
    ensures var m := Call(DoStop(x)); Do(t, m).Ok? ==> Fails(Do(t, m).value, Letting(x, ReceivedEv))
  {
    var m := Call(DoStop(x));
    var w, g, v := Flight(t, x), Held(t, Other(x)), Queues(t, x);
    OnceHeld(w.me.inbox, Held(t, x));
    RestIn(w.me.inbox, Held(t, x));
    assert forall e | e in v.me.inbox :: e == ReceivedEv;
    hide Rest, Fails, Letting, Resume, Comes;
    if Do(t, m).Ok? {
      var r := Stop(v).value;
      ResumeKeeps(w, r, g);
      WithIs(t, x, Resume(w, r, g), Held(t, x));
      PassesIs(w.me.inbox, ReceivedEv);
      assert !Pending(w.me) by { PendingSeen(w, Held(t, x), g); }
      DeafFaults(Do(t, m).value, x, ReceivedEv);
    }
  }

  /** The moves past the handshake; w may differ from the pair in what the peer has. */
  lemma UndueFaults(t: Program, w: Ends, m: Move) returns (rest: seq<Move>)
    requires var x := EndOf(m);
             w.me == Flight(t, x).me && Control(w) && !Handshaking(w.me) && !Late(w.me)
             && forall f | f in Held(t, x) :: f in w.me.inbox
    requires Possible(t, m) && !Due(t, m)
    ensures Do(t, m).Ok? ==> Fails(Do(t, m).value, rest)
  {
    hide Possible, Do, Fails, Letting, TooSoon;
    if m.Enter? {
      assert m.e in w.me.inbox by { EnterIsIn(t, m); }
      UndueEvent(t, w, m.x, m.e, m.added);
      var f :| TooSoon(t, m.x, f);
      DisconnectFaults(t, m.x, f, m.added);
      rest := Letting(m.x, f);
    } else {
      UndueStop(t, w, m);
      StopFaults(t, m.s.x);
      rest := Letting(m.s.x, ReceivedEv);
    }
  }

  lemma EnterIsIn(t: Program, m: Move)
    requires Possible(t, m) && m.Enter?
    ensures m.e in Flight(t, m.x).me.inbox
  {
  }

  lemma UndueStop(t: Program, w: Ends, m: Move)
    requires var x := EndOf(m);
             !m.Enter? && w.me == Flight(t, x).me && Control(w) && !Handshaking(w.me)
             && forall f | f in Held(t, x) :: f in w.me.inbox
    requires Possible(t, m) && !Due(t, m)
    ensures m == Call(DoStop(EndOf(m)))
    ensures w.me.state == Disconnected && w.me.fsm == FsmActive && w.me.inbox == [ReceivedEv]
    ensures ReceivedEv in Held(t, EndOf(m))
  {
  }

  // ---------- in state READY ----------

  /** All that y has to come is DISCONNECT, and the ACCEPTED it raised is still queued. */
  predicate Cornered(t: Program, y: End)
  {
    var w := Flight(t, y);
    && w.me.inbox == [DisconnectEv] && Listens(w.me) && !w.me.told
    && AcceptedEv in w.peer.inbox && AcceptedEv !in Held(t, Other(y)) && ReceivedEv !in Held(t, y)
    && (w.me.state == Active ==> w.me.hasPeer && DisconnectEv !in w.peer.inbox && !w.peer.told)
  }

  function Closing(y: End): seq<Move>
  {
    Draining(y, [Call(DoStop(y))] + ([Hold(y, DisconnectEv)] + ([Enter(y, DisconnectEv, true)] + [])))
  }

  lemma FirstIn(q: seq<Event>)
    ensures q != [] ==> q[0] in q
  {
  }

  lemma CornerCloses(t: Program, y: End)
    requires Cornered(t, y) && Flight(t, y).me.state == StoppingPeer && !Pending(Flight(t, y).me)
    ensures Fails(t, [Hold(y, DisconnectEv)] + ([Enter(y, DisconnectEv, true)] + []))
  {
    var t1 := Holding(t, y, DisconnectEv);
    HoldMakes(t, y, DisconnectEv);
    WithIs(t, y, Flight(t, y), Held(t, y) + {DisconnectEv});
    HoldIsDue(t, y, DisconnectEv);
    hide Rest, After, DueRun, Moves, Fails, Do, Possible, Due;
    CornerReports(t1, y);
    FailsThen(t1, Enter(y, DisconnectEv, true), []);
    FailsThen(t, Hold(y, DisconnectEv), [Enter(y, DisconnectEv, true)] + []);
  }

  /** Entering the last DISCONNECT reaches the check on event_connect. */
  lemma CornerReports(t: Program, y: End)
    requires Cornered(t, y) && Flight(t, y).me.state == StoppingPeer && !Pending(Flight(t, y).me)
    requires DisconnectEv in Held(t, y)
    ensures var m := Enter(y, DisconnectEv, true); Possible(t, m) && Due(t, m) && Do(t, m) == Abort(SinprocC, 236)
  {
    var w, v := Flight(t, y), Queues(t, y);
    RestIn(w.peer.inbox, Held(t, Other(y)));
    RestIn(w.me.inbox, Held(t, y));
    FirstIn(v.me.inbox);
    hide Rest;
    assert Process(v, DisconnectEv, true) == Abort(SinprocC, 236);
    hide Process;
    assert Seqs.Find(w.me.inbox, DisconnectEv) == 0;
  }

  /** The stop of a cornered end, whether it was stopped before or not. */
  lemma CornerStops(t: Program, y: End)
    requires Cornered(t, y) && !Pending(Flight(t, y).me)
    ensures var m := Call(DoStop(y));
            && Possible(t, m) && Due(t, m) && Do(t, m).Ok?
            && var u := Do(t, m).value;
               Cornered(u, y) && Flight(u, y).me.state == StoppingPeer && !Pending(Flight(u, y).me)
  {
    var w, h, g, v := Flight(t, y), Held(t, y), Held(t, Other(y)), Queues(t, y);
    RestIn(w.peer.inbox, g);
    PendingSeen(w, h, g);
    hide Rest, Resume;
    if w.me.state == Active {
      StopsActive(v);
      Resumes(w, Stop(v).value, g, [DisconnectEv]);
    } else {
      Resumes(w, v, g, []);
    }
    WithIs(t, y, Resume(w, Stop(v).value, g), h);
  }

  lemma StopsActive(w: Ends)
    requires w.me.state == Active && w.me.fsm == FsmActive && w.me.hasPeer
    requires DisconnectEv !in w.peer.inbox && !w.peer.told
    ensures Stop(w) == Ok(Stopped(w))
  {
  }

  lemma CorneredFaults(t: Program, y: End)
    requires Cornered(t, y)
    ensures Fails(t, Closing(y))
  {
    hide Possible, Do, Due, Fails, After, Rest;
    EmptiedIs(t, y);
    var t1 := Emptied(t, y);
    CornerStops(t1, y);
    var u := Do(t1, Call(DoStop(y))).value;
    CornerCloses(u, y);
    AfterIs(t1, Call(DoStop(y)));
    FailsThen(t1, Call(DoStop(y)), [Hold(y, DisconnectEv)] + ([Enter(y, DisconnectEv, true)] + []));
    DrainFirst(t, y, [Call(DoStop(y))] + ([Hold(y, DisconnectEv)] + ([Enter(y, DisconnectEv, true)] + [])));
  }

  lemma AfterIs(t: Program, m: Move)
    requires Possible(t, m) && Do(t, m).Ok?
    ensures After(t, m) == Do(t, m).value
  {
  }

  /** The pair when one end is in READY. */
  lemma ReadyIs(w: Ends)
    requires Control(w) && w.me.state == Ready
    ensures w.me.fsm == FsmActive && w.me.hasPeer && !w.me.told && w.me.pipe == FRESH_PIPE && !w.peer.told
    ensures DisconnectEv !in w.peer.inbox
    ensures w.peer.state == Connecting ==> w.peer.inbox == [ReadyEv] && w.me.inbox == []
    ensures w.peer.state == Connecting ==> w.peer.fsm == FsmActive && w.peer.pipe == FRESH_PIPE
    ensures w.peer.state != Connecting ==> w.peer.inbox == [] && AcceptedEv in w.me.inbox && Listens(w.peer)
    ensures w.peer.state == Active ==> w.peer.hasPeer && DisconnectEv !in w.me.inbox
    ensures DisconnectEv !in w.me.inbox && w.peer.state != Connecting ==> w.peer.state == Active
  {
    hide PipeMirrors, Tokens;
  }

  function Hearing(y: End): seq<Move>
  {
    [Hold(y, ReadyEv)] + ([Enter(y, ReadyEv, true)] + Closing(y))
  }

  /** A connector that has not heard READY yet enters it, its peer already on the way out. */
  predicate Unaware(t: Program, y: End)
  {
    var w := Flight(t, y);
    && w.me.state == Connecting && w.me.fsm == FsmActive && w.me.inbox == [ReadyEv, DisconnectEv] && !w.me.told
    && w.me.pipe == FRESH_PIPE && w.peer.inbox == [] && !w.peer.told
    && Held(t, Other(y)) == {} && ReceivedEv !in Held(t, y)
  }

  lemma UnawareEnters(t: Program, y: End)
    requires Unaware(t, y) && ReadyEv in Held(t, y)
    ensures var m := Enter(y, ReadyEv, true);
            Possible(t, m) && Due(t, m) && Do(t, m).Ok? && Cornered(Do(t, m).value, y)
  {
    var w := Flight(t, y);
    var v := Queues(t, y);
    assert Seqs.Find(w.me.inbox, ReadyEv) == 0;
    var u := Taken(w, 0);
    assert u.me.inbox == [DisconnectEv];
    HearsReady(v);
    hide Process, Resume;
    var r := Process(v, ReadyEv, true).value;
    Resumes(u, r, {}, [AcceptedEv]);
    hide Rest;
    WithIs(t, y, Resume(u, r, {}), Held(t, y) - {ReadyEv});
  }

  lemma HearsReady(w: Ends)
    requires w.me.state == Connecting && w.me.fsm == FsmActive && w.me.pipe == FRESH_PIPE && w.peer.inbox == []
    ensures Process(w, ReadyEv, true) ==
            Ok(Ends(w.me.(hasPeer := true, state := Active,
                          pipe := FRESH_PIPE.(state := PActive, instate := InAsync, outstate := OutIdle,
                                              outQueued := true)),
                    w.peer.(inbox := w.peer.inbox + [AcceptedEv])))
  {
  }

  lemma UnawareFaults(t: Program, y: End)
    requires Unaware(t, y)
    ensures Fails(t, Hearing(y))
  {
    hide Possible, Do, Due, Fails, After, Rest, Closing, Cornered;
    var t1 := Holding(t, y, ReadyEv);
    HoldMakes(t, y, ReadyEv);
    WithIs(t, y, Flight(t, y), Held(t, y) + {ReadyEv});
    UnawareEnters(t1, y);
    var m := Enter(y, ReadyEv, true);
    CorneredFaults(Do(t1, m).value, y);
    AfterIs(t1, m);
    FailsThen(t1, m, Closing(y));
    HoldIsDue(t, y, ReadyEv);
    FailsThen(t, Hold(y, ReadyEv), [m] + Closing(y));
  }

  /** A connector that has heard READY does so without those moves. */
  lemma AwareFaults(t: Program, y: End)
    requires Cornered(t, y)
    ensures Fails(t, Hearing(y))
  {
    RestIn(Flight(t, y).me.inbox, Held(t, y));
    CorneredFaults(t, y);
    hide Fails, Do, Due, Closing, Rest;
    FailsThen(t, Enter(y, ReadyEv, true), Closing(y));
    FailsThen(t, Hold(y, ReadyEv), [Enter(y, ReadyEv, true)] + Closing(y));
  }

  /** An end stopped in READY while its ACCEPTED is not held by a thread. */
  lemma EarlyStopFaults(t: Program, x: End)
    requires Clean(t) && Flight(t, x).me.state == Ready && Possible(t, Call(DoStop(x)))
    requires AcceptedEv in Held(t, x) ==> AcceptedEv !in Flight(t, x).me.inbox
    ensures var m := Call(DoStop(x)); Do(t, m).Ok? && Fails(Do(t, m).value, Hearing(Other(x)))
  {
    var w := Flight(t, x);
    hide Clean, Hearing, Fails, Possible, Do, Rest, Unaware, Cornered, Control, Tidy;
    CleanAt(t, x);
    hide Inv;
    ReadyIs(w);
    ReadyStops(t, x);
    var u := With(t, x, Stopped(w), Held(t, x));
    if w.peer.state == Connecting {
      EarlyIsUnaware(t, x);
      UnawareFaults(u, Other(x));
    } else {
      EarlyIsCornered(t, x);
      AwareFaults(u, Other(x));
    }
  }

  lemma EarlyIsUnaware(t: Program, x: End)
    requires var w := Flight(t, x);
             && InFlight(w, Held(t, x), Held(t, Other(x))) && !w.me.told
             && w.peer.state == Connecting && w.peer.fsm == FsmActive && w.peer.inbox == [ReadyEv] && w.me.inbox == []
             && w.peer.pipe == FRESH_PIPE && !w.peer.told
    ensures Unaware(With(t, x, Stopped(Flight(t, x)), Held(t, x)), Other(x))
  {
    var w := Flight(t, x);
    WithIs(t, x, Stopped(w), Held(t, x));
    assert Flight(With(t, x, Stopped(w), Held(t, x)), Other(x)) == Ends(Stopped(w).peer, Stopped(w).me);
    assert Held(t, x) == {};
  }

  lemma EarlyIsCornered(t: Program, x: End)
    requires var w := Flight(t, x);
             && InFlight(w, Held(t, x), Held(t, Other(x))) && !w.me.told && AcceptedEv !in Held(t, x)
             && w.peer.inbox == [] && AcceptedEv in w.me.inbox && Listens(w.peer) && !w.peer.told
             && (w.peer.state == Active ==> w.peer.hasPeer && DisconnectEv !in w.me.inbox)
    ensures Cornered(With(t, x, Stopped(Flight(t, x)), Held(t, x)), Other(x))
  {
    var w := Flight(t, x);
    WithIs(t, x, Stopped(w), Held(t, x));
    assert Flight(With(t, x, Stopped(w), Held(t, x)), Other(x)) == Ends(Stopped(w).peer, Stopped(w).me);
  }

  // ---------- a pipe that the socket refuses ----------

  lemma RefusedIs(w: Ends)
    requires w.me.state == Ready && w.me.fsm == FsmActive && w.me.pipe == FRESH_PIPE && !w.me.told
    ensures var r := Process(w, AcceptedEv, false);
            if DisconnectEv in w.me.inbox then r == Abort(QueueC, 23)
            else r.Ok? && r.value.peer == w.peer && r.value.me.state == Disconnected && r.value.me.fsm == FsmActive
                 && r.value.me.told && !r.value.me.pipe.inQueued && !r.value.me.pipe.outQueued
  {
  }

  lemma ReadyInbox(w: Ends)
    requires Control(w) && w.me.state == Ready
    ensures Tidy(w.me.inbox) && forall e | e in w.me.inbox :: e == AcceptedEv || e == SentEv || e == DisconnectEv
  {
    hide PipeMirrors;
  }

  /** What comes after ACCEPTED. */
  lemma AfterAccepted(q: seq<Event>)
    requires Tidy(q) && AcceptedEv in q
    requires forall e | e in q :: e == AcceptedEv || e == SentEv || e == DisconnectEv
    ensures q != [] && Seqs.Find(q, AcceptedEv) == 0
    ensures var r := TakeOff(q, 0);
            && (r == [] || Comes(r, SentEv) || Comes(r, DisconnectEv))
            && forall e :: e in r <==> e in q && e != AcceptedEv
  {
    Pop(q, Seqs.Find(q, AcceptedEv));
    var r := TakeOff(q, 0);
    assert r == q[1..];
    if r != [] {
      assert r[0] in r;
      assert Seqs.Find(r, r[0]) == 0;
    }
  }

  function Leaving(y: End): seq<Move>
  {
    Draining(y, [Call(DoStop(y))] + [])
  }

  /** The stop of its peer finds the event object still queued to the owner. */
  lemma LeavingFaults(t: Program, y: End)
    requires var w := Flight(t, y);
             w.me.state == Active && w.me.fsm == FsmActive && w.me.hasPeer && !w.me.told && w.peer.told
    ensures Fails(t, Leaving(y))
  {
    EmptiedIs(t, y);
    var u := Emptied(t, y);
    hide Emptied, Fails, Rest;
    assert Possible(u, Call(DoStop(y)));
    assert Stop(Queues(u, y)) == Abort(QueueC, 23);
    FailsThen(u, Call(DoStop(y)), []);
    DrainFirst(t, y, [Call(DoStop(y))] + []);
  }

  /** A session whose new pipe was refused, its event object queued to the owner. */
  predicate Refused(n: Node)
  {
    n.state == Disconnected && n.fsm == FsmActive && n.told && !n.pipe.inQueued && !n.pipe.outQueued
  }

  lemma RefusedMakes(t: Program, x: End)
    requires Control(Flight(t, x)) && Flight(t, x).me.state == Ready && Possible(t, Enter(x, AcceptedEv, false))
    ensures var r := Do(t, Enter(x, AcceptedEv, false));
            var w := Flight(t, x);
            && AcceptedEv in w.me.inbox && Seqs.Find(w.me.inbox, AcceptedEv) == 0
            && (r.Ok? ==> Refused(Flight(r.value, x).me) && Flight(r.value, x).me.inbox == TakeOff(w.me.inbox, 0)
                          && Flight(r.value, x).peer == w.peer)
  {
    var w := Flight(t, x);
    assert AcceptedEv in w.me.inbox;
    hide Possible, Do;
    ReadyIs(w);
    ReadyInbox(w);
    AfterAccepted(w.me.inbox);
    hide Control, Tidy, Comes;
    RefusedSeen(t, x);
  }

  lemma RefusedSeen(t: Program, x: End)
    requires var w := Flight(t, x);
             && w.me.state == Ready && w.me.fsm == FsmActive && w.me.pipe == FRESH_PIPE && !w.me.told
             && AcceptedEv in w.me.inbox && Seqs.Find(w.me.inbox, AcceptedEv) == 0
    requires Possible(t, Enter(x, AcceptedEv, false))
    ensures var r := Do(t, Enter(x, AcceptedEv, false));
            var w := Flight(t, x);
            r.Ok? ==> Refused(Flight(r.value, x).me) && Flight(r.value, x).me.inbox == TakeOff(w.me.inbox, 0)
                      && Flight(r.value, x).peer == w.peer
  {
    var m := Enter(x, AcceptedEv, false);
    var w, h, g, v := Flight(t, x), Held(t, x), Held(t, Other(x)), Queues(t, x);
    hide Rest, Process, Resume, TakeOff;
    RefusedIs(v);
    if Do(t, m).Ok? {
      var r := Process(v, AcceptedEv, false).value;
      Resumes(Taken(w, 0), r, g, []);
      WithIs(t, x, Resume(Taken(w, 0), r, g), h - {AcceptedEv});
    }
  }

  lemma RefusedFaults(t: Program, x: End) returns (rest: seq<Move>)
    requires var w := Flight(t, x);
             && Refused(w.me) && (w.me.inbox == [] || Comes(w.me.inbox, SentEv) || Comes(w.me.inbox, DisconnectEv))
             && (w.me.inbox == [] ==>
                   w.peer.state == Active && w.peer.fsm == FsmActive && w.peer.hasPeer && !w.peer.told)
    ensures Fails(t, rest)
  {
    hide Fails, Letting, Leaving, Comes;
    var w := Flight(t, x);
    if w.me.inbox == [] {
      assert Flight(t, Other(x)) == Ends(w.peer, w.me);
      LeavingFaults(t, Other(x));
      rest := Leaving(Other(x));
    } else {
      var e := if Comes(w.me.inbox, SentEv) then SentEv else DisconnectEv;
      DeafFaults(t, x, e);
      rest := Letting(x, e);
    }
  }

  lemma RefusedPipeFaults(t: Program, x: End) returns (rest: seq<Move>)
    requires Clean(t) && Flight(t, x).me.state == Ready && Possible(t, Enter(x, AcceptedEv, false))
    ensures var m := Enter(x, AcceptedEv, false); Do(t, m).Ok? ==> Fails(Do(t, m).value, rest)
  {
    var m := Enter(x, AcceptedEv, false);
    var w := Flight(t, x);
    CleanAt(t, x);
    hide Inv, Clean, Rest, Fails, Possible, Do, Comes, TakeOff, Tidy, InFlight, Half;
    RefusedMakes(t, x);
    ReadyIs(w);
    ReadyInbox(w);
    AfterAccepted(w.me.inbox);
    rest := [];
    if Do(t, m).Ok? {
      rest := RefusedFaults(Do(t, m).value, x);
    }
  }

  // ---------- every move that is not due ----------

  lemma ConnectingFaults(t: Program, m: Move)
    requires Clean(t) && Flight(t, EndOf(m)).me.state == Connecting && Possible(t, m) && !Due(t, m)
    ensures Do(t, m).Abort?
  {
    hide Clean, Rest, Inv, Half, Due, Possible;
    CleanAt(t, EndOf(m));
    ConnectingIs(Flight(t, EndOf(m)));
    match m
    case Hold(_, _) => HoldsAreDue(t, m);
    case Enter(x, e, added) => ConnectingEnters(t, x, e, added);
    case Call(s) => ConnectingCalls(t, s);
  }

  lemma HoldsAreDue(t: Program, m: Move)
    requires m.Hold?
    ensures Due(t, m)
  {
  }

  lemma ConnectingEnters(t: Program, x: End, e: Event, added: bool)
    requires var w := Flight(t, x); w.me.state == Connecting && w.me.inbox == [ReadyEv] && w.me.fsm == FsmActive
    requires Possible(t, Enter(x, e, added)) && !Due(t, Enter(x, e, added))
    ensures Do(t, Enter(x, e, added)).Abort?
  {
    hide Rest, Resume;
    assert Queues(t, x).me.state == Connecting && Queues(t, x).me.fsm == FsmActive;
    hide Queues;
  }

  lemma ConnectingCalls(t: Program, s: Step)
    requires var w := Flight(t, s.x); w.me.state == Connecting && w.me.fsm == FsmActive && !w.me.hasPeer
    requires Possible(t, Call(s)) && !Due(t, Call(s))
    ensures Do(t, Call(s)).Abort?
  {
    hide Rest, Resume, RaiseTo, PipeSend, PipeRecv;
    assert Queues(t, s.x).me.state == Connecting && !Queues(t, s.x).me.hasPeer;
  }

  lemma ConnectingIs(w: Ends)
    requires Control(w) && w.me.state == Connecting
    ensures w.me.fsm == FsmActive && !w.me.hasPeer && w.me.inbox == [ReadyEv]
  {
    hide PipeMirrors, Tokens;
  }

  lemma ReadyEnters(t: Program, m: Move)
    requires Clean(t) && Flight(t, EndOf(m)).me.state == Ready && m.Enter? && Possible(t, m) && !Due(t, m)
    ensures Do(t, m).Abort? || m == Enter(m.x, AcceptedEv, false)
  {
    CleanAt(t, EndOf(m));
    hide Inv, Clean, PipeMirrors, Tokens, Rest;
  }

  lemma ReadyCalls(t: Program, m: Move)
    requires Flight(t, EndOf(m)).me.state == Ready && Flight(t, EndOf(m)).me.fsm == FsmActive
    requires !m.Enter? && Possible(t, m) && !Due(t, m)
    ensures m == Call(DoStop(EndOf(m)))
    ensures AcceptedEv in Held(t, EndOf(m)) ==> AcceptedEv !in Flight(t, EndOf(m)).me.inbox
  {
  }

  lemma CleanFaults(t: Program, m: Move) returns (rest: seq<Move>)
    requires Clean(t) && Possible(t, m) && !Due(t, m)
    ensures Do(t, m).Ok? ==> Fails(Do(t, m).value, rest)
  {
    var x := EndOf(m);
    CleanAt(t, x);
    hide Clean, Inv, Possible, Due, Do, Fails, Hearing, PipeMirrors, Tokens, Tidy;
    rest := [];
    if Flight(t, x).me.state == Connecting {
      ConnectingFaults(t, m);
    } else if Flight(t, x).me.state != Ready {
      rest := UndueFaults(t, Flight(t, x), m);
    } else if !m.Enter? {
      ReadyCalls(t, m);
      EarlyStopFaults(t, x);
      rest := Hearing(Other(x));
    } else {
      ReadyEnters(t, m);
      if Do(t, m).Ok? {
        rest := RefusedPipeFaults(t, x);
      }
    }
  }

  /** A session stopped before the ACCEPTED that a thread holds enters DISCONNECT first. */
  lemma LateFaults(b: Program, x: End, m: Move)
    requires Clean(b) && Flight(b, x).me.state == StoppingPeer && EndOf(m) == x
    requires Possible(AddLate(b, x), m) && !Due(AddLate(b, x), m)
    ensures m.Enter? && m.e == DisconnectEv && TooSoon(AddLate(b, x), x, AcceptedEv)
  {
    LateIs(b, x);
    LateViews(b, x);
    var t := AddLate(b, x);
    var q := Flight(t, x).me.inbox;
    hide Control, Clean, AddLate, Rest, NotIn, TakeOff, Comes;
    SameEnabled(Flight(t, x), Held(t, x), Held(t, Other(x)), if m.Call? then m.s else DoStop(x));
    if m.Call? {
      CallsKeepState(Flight(t, x), m.s);
    } else {
      AcceptedFirst(q);
    }
  }

  /** ACCEPTED stays the first when DISCONNECT is taken out behind it. */
  lemma AcceptedFirst(q: seq<Event>)
    requires q != [] && q[0] == AcceptedEv
    ensures DisconnectEv in q ==> Comes(TakeOff(q, Seqs.Find(q, DisconnectEv)), AcceptedEv)
  {
    if DisconnectEv in q {
      var k := Seqs.Find(q, DisconnectEv);
      assert k > 0 && TakeOff(q, k)[0] == AcceptedEv;
      assert Seqs.Find(TakeOff(q, k), AcceptedEv) == 0;
    }
  }

  lemma SoundFaults(t: Program, m: Move) returns (rest: seq<Move>)
    requires Sound(t) && Possible(t, m) && !Due(t, m)
    ensures Do(t, m).Ok? ==> Fails(Do(t, m).value, rest)
  {
    hide Clean, Possible, Due, Do, Fails, AddLate, Letting, TooSoon;
    if Clean(t) {
      rest := CleanFaults(t, m);
    } else {
      var b, x :| LateOf(t, b, x);
      if EndOf(m) == x {
        LateFaults(b, x, m);
        DisconnectFaults(t, x, AcceptedEv, m.added);
        rest := Letting(x, AcceptedEv);
      } else {
        PeerOfLate(b, x);
        rest := UndueFaults(t, Flight(b, EndOf(m)), m);
      }
    }
  }

  lemma PeerOfLate(b: Program, x: End)
    requires Clean(b) && Flight(b, x).me.state == StoppingPeer && !Flight(b, x).me.connector
    ensures var y := Other(x); var w := Flight(b, y);
            && Control(w) && !Handshaking(w.me) && !Late(w.me) && w.me == Flight(AddLate(b, x), y).me
            && forall f | f in Held(AddLate(b, x), y) :: f in w.me.inbox
  {
    var y := Other(x);
    CleanAt(b, y);
    CleanAt(b, x);
    LateIs(b, x);
    LateViews(b, x);
    hide Clean, Inv, PipeMirrors, Tokens, Tidy;
  }

  // ---------- exactly these moves ----------

  ghost predicate DueAfter(t: Program, m: Move, rest: seq<Move>)
    requires Possible(t, m)
  {
    Do(t, m).Ok? ==> DueRun(Do(t, m).value, rest)
  }

  /** What callers owe is exactly right: wherever due moves have led, a possible move is
      due if and only if no due moves after it reach a fatal check. */
  lemma DueIsExact(t: Program, m: Move)
    requires Attained(t) && Possible(t, m)
    ensures Due(t, m) <==> forall rest :: DueAfter(t, m, rest) ==> Moves(t, [m] + rest).Ok?
  {
    AttainedIsSound(t);
    hide Attained, Sound, Possible, Due, DueAfter, Moves;
    if Due(t, m) {
      forall rest | DueAfter(t, m, rest) ensures Moves(t, [m] + rest).Ok? {
        DueIsSafe(t, m, rest);
      }
    } else {
      var rest := UndueIsFatal(t, m);
    }
  }

  lemma DueIsSafe(t: Program, m: Move, rest: seq<Move>)
    requires Sound(t) && Possible(t, m) && Due(t, m) && DueAfter(t, m, rest)
    ensures Moves(t, [m] + rest).Ok?
  {
    hide Sound, Possible, Due, Do, DueRun;
    SoundKept(t, m);
    assert ([m] + rest)[1..] == rest;
    HoldingIsSafe(Do(t, m).value, rest);
  }

  lemma UndueIsFatal(t: Program, m: Move) returns (rest: seq<Move>)
    requires Sound(t) && Possible(t, m) && !Due(t, m)
    ensures DueAfter(t, m, rest) && Moves(t, [m] + rest).Abort?
  {
    hide Sound, Possible, Due, Do, DueRun;
    rest := SoundFaults(t, m);
    assert ([m] + rest)[1..] == rest;
  }
}
