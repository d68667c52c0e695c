/** Between taking an event off a queue and entering the context of its session no
    mutex is held (a thread holds the event).  Here these are two moves; what
    callers owe then, and that it keeps every run from the fatal checks. */
module SessionHolding {
  import opened Outcome
  import opened Messages
  import opened Session
  import opened SessionInvariant
  import opened SessionTheorems
  import opened SessionQueues
  import Seqs

  /** `p` has for each end everything in flight to it, in the order of raising; `a` and
      `b` say which of it threads hold, the rest is queued. */
  datatype Program = Program(p: Pair, a: set<Event>, b: set<Event>)

  datatype Move =
    | Hold(x: End, e: Event)                  // a thread takes an event off the queue
    | Enter(x: End, e: Event, added: bool)    // ... and processes it in the context of its session
    | Call(s: Step)                           // any other step

  function Held(t: Program, x: End): set<Event>
  {
    if x == A then t.a else t.b
  }

  /** The pair as seen from x, everything in flight. */
  function Flight(t: Program, x: End): Ends
  {
    View(t.p, x)
  }

  /** The pair as the code sees it. */
  function Queues(t: Program, x: End): Ends
  {
    Seen(View(t.p, x), Held(t, x), Held(t, Other(x)))
  }

  function With(t: Program, x: End, w: Ends, h: set<Event>): Program
  {
    if x == A then Program(Back(w, x), h, t.b) else Program(Back(w, x), t.a, h)
  }

  function EndOf(m: Move): End
  {
    if m.Call? then m.s.x else m.x
  }

  predicate Possible(t: Program, m: Move)
  {
    match m
    case Hold(x, e) => e in Queues(t, x).me.inbox
    case Enter(x, e, _) => e in Held(t, x) && e in Flight(t, x).me.inbox && !Pending(Flight(t, x).me)
    case Call(s) => !s.DoDeliver? && Enabled(Queues(t, s.x), s)
  }

  /** What was pushed behind q. */
  function Pushed(q: seq<Event>, r: seq<Event>): seq<Event>
  {
    if |q| <= |r| then r[|q|..] else []
  }

  /** Everything in flight after the code has made v of what it sees of w. */
  function Resume(w: Ends, v: Ends, g: set<Event>): Ends
  {
    Ends(v.me.(inbox := w.me.inbox),
         v.peer.(inbox := w.peer.inbox + Pushed(Rest(w.peer.inbox, g), v.peer.inbox)))
  }

  function Do(t: Program, m: Move): Result<Program>
    requires Possible(t, m)
  {
    var x := EndOf(m);
    var w, h, g := Flight(t, x), Held(t, x), Held(t, Other(x));
    match m
    case Hold(_, e) => Ok(With(t, x, w, h + {e}))
    case Enter(_, e, added) =>
      var v :- Process(Queues(t, x), e, added);
      Ok(With(t, x, Resume(Taken(w, Seqs.Find(w.me.inbox, e)), v, g), h - {e}))
    case Call(s) =>
      var v :- Apply(Queues(t, x), s);
      Ok(With(t, x, Resume(w, v, g), h))
  }

  /** A run of moves; one that is not possible is skipped. */
  function Moves(t: Program, moves: seq<Move>): Result<Program>
    decreases |moves|
  {
    if moves == [] then Ok(t)
    else if !Possible(t, moves[0]) then Moves(t, moves[1..])
    else
      var u :- Do(t, moves[0]);
      Moves(u, moves[1..])
  }

  // ---------- what the moves owe ----------

  /** The step of Session that a move is; holding an event is none. */
  function StepOf(t: Program, m: Move): Step
    requires m.Enter? ==> m.e in Flight(t, m.x).me.inbox
  {
    match m
    case Hold(x, e) => DoTakeIn(x)
    case Enter(x, e, added) => DoDeliver(x, Seqs.Find(Flight(t, x).me.inbox, e), added)
    case Call(s) => s
  }

  /** A session stopped before the ACCEPTED that a thread holds for it. */
  predicate Late(n: Node)
  {
    n.state == StoppingPeer && AcceptedEv in n.inbox
  }

  predicate EarlyStop(t: Program, m: Move)
  {
    m.Call? && m.s.DoStop? && var w := Flight(t, m.s.x);
    w.me.state == Ready && w.me.fsm == FsmActive && AcceptedEv in w.me.inbox && AcceptedEv in Held(t, m.s.x)
  }

  /** What its step owes, and not to report STOPPED over a held RECEIVED; but a session
      may be stopped while ACCEPTED is held, and then needs ACCEPTED before DISCONNECT. */
  predicate Due(t: Program, m: Move)
  {
    match m
    case Hold(_, _) => true
    case Enter(x, e, _) =>
      var w := Flight(t, x);
      && e in w.me.inbox
      && if Late(w.me) then e != DisconnectEv
         else Careful(w, StepOf(t, m)) && !HoldsBack(w, StepOf(t, m), Held(t, x))
    case Call(s) =>
      EarlyStop(t, m) || (Careful(Flight(t, s.x), s) && !HoldsBack(Flight(t, s.x), s, Held(t, s.x)))
  }

  predicate DueRun(t: Program, moves: seq<Move>)
    decreases |moves|
  {
    moves == [] ||
    if !Possible(t, moves[0]) then DueRun(t, moves[1..])
    else Due(t, moves[0]) && (Do(t, moves[0]).Ok? ==> DueRun(Do(t, moves[0]).value, moves[1..]))
  }

  // ---------- what is in flight ----------

  lemma {:induction false} RestConcat(q: seq<Event>, r: seq<Event>, g: set<Event>)
    ensures Rest(q + r, g) == Rest(q, g) + Rest(r, g)
  {
    if q == [] {
      assert q + r == r;
    } else {
      assert (q + r)[0] == q[0] && (q + r)[1..] == q[1..] + r;
      RestConcat(q[1..], r, g);
    }
  }

  lemma {:induction false} RestNone(q: seq<Event>, g: set<Event>)
    requires forall e | e in q :: e !in g
    ensures Rest(q, g) == q
  {
    if q != [] {
      assert q[0] in q;
      RestNone(q[1..], g);
    }
  }

  /** What a step of Session makes is what the step on the queues is resumed to. */
  lemma Resumed(w: Ends, r: Ends, h: set<Event>, g: set<Event>)
    requires r.me.inbox == w.me.inbox && w.peer.inbox <= r.peer.inbox && Tidy(r.peer.inbox)
    requires forall e | e in g :: e in w.peer.inbox
    ensures Resume(w, Seen(r, h, g), g) == r
  {
    var q := w.peer.inbox;
    var n := r.peer.inbox[|q|..];
    assert r.peer.inbox == q + n;
    forall e | e in n ensures e !in q {
      var j :| 0 <= j < |n| && n[j] == e;
      assert r.peer.inbox[|q| + j] == e;
      assert forall i | 0 <= i < |q| :: r.peer.inbox[i] == q[i];
    }
    RestConcat(q, n, g);
    RestNone(n, g);
    assert Pushed(Rest(q, g), Rest(q, g) + n) == n;
  }

  predicate Flying(t: Program)
  {
    InFlight(View(t.p, A), t.a, t.b)
  }

  lemma FlyingAt(t: Program, x: End)
    ensures Flying(t) <==> InFlight(Flight(t, x), Held(t, x), Held(t, Other(x)))
  {
  }

  /** Nobody is late, and all is well in Session. */
  ghost predicate Clean(t: Program)
  {
    Good(t.p) && Flying(t)
  }

  lemma CleanAt(t: Program, x: End)
    requires Clean(t)
    ensures var w := Flight(t, x);
            && Inv(w) && Control(w) && Tidy(w.me.inbox) && !Late(w.me) && !Late(w.peer)
            && InFlight(w, Held(t, x), Held(t, Other(x)))
  {
    EitherView(t.p, x);
    FlyingAt(t, x);
    InvIs(Flight(t, x));
  }

  lemma WithIs(t: Program, x: End, w: Ends, h: set<Event>)
    ensures var u := With(t, x, w, h);
            Flight(u, x) == w && Held(u, x) == h && Held(u, Other(x)) == Held(t, Other(x))
  {
  }

  // ---------- one move, nobody late ----------

  /** What a step of Session comes to. */
  function Stepped(t: Program, m: Move): Program
    requires m.Enter? ==> m.e in Flight(t, m.x).me.inbox
    requires Enabled(Flight(t, EndOf(m)), StepOf(t, m)) && Apply(Flight(t, EndOf(m)), StepOf(t, m)).Ok?
  {
    var x := EndOf(m);
    With(t, x, Apply(Flight(t, x), StepOf(t, m)).value, if m.Enter? then Held(t, x) - {m.e} else Held(t, x))
  }

  lemma GoodStep(t: Program, x: End, s: Step, h: set<Event>)
    requires Clean(t) && s.x == x && Enabled(Flight(t, x), s) && Careful(Flight(t, x), s)
    ensures Apply(Flight(t, x), s).Ok?
    ensures var u := With(t, x, Apply(Flight(t, x), s).value, h);
            Good(u.p) && Tidy(Flight(u, x).peer.inbox)
  {
    hide Inv, Enabled, Careful, Apply;
    StepIsGood(t.p, s);
    var u := With(t, x, Apply(Flight(t, x), s).value, h);
    EitherView(u.p, Other(x));
    InvIs(Flight(u, Other(x)));
  }

  lemma EnterIs(t: Program, m: Move)
    requires Clean(t) && m.Enter? && Possible(t, m) && Due(t, m)
    ensures var w := Flight(t, m.x); Enabled(w, StepOf(t, m)) && Careful(w, StepOf(t, m)) && Apply(w, StepOf(t, m)).Ok?
    ensures Do(t, m) == Ok(Stepped(t, m)) && Clean(Stepped(t, m))
  {
    hide Inv, Control, Tidy, Seen, Rest, InFlight, Careful, HoldsBack, Deliver, Process, Pending, Resume, Good;
    var x, s := m.x, StepOf(t, m);
    var w, h, g := Flight(t, x), Held(t, x), Held(t, Other(x));
    CleanAt(t, x);
    GoodStep(t, x, s, h - {m.e});
    DeliveryHoldsNothing(w, s.k, s.added, h, g, x);
    EnterSame(w, h, g, s.k, s.added);
    DeliverGrows(w, s.k, s.added);
    FlyingFor(w, h, g);
    Resumed(Taken(w, s.k), Deliver(w, s.k, s.added).value, h - {m.e}, g);
    WithIs(t, x, Deliver(w, s.k, s.added).value, h - {m.e});
    FlyingAt(Stepped(t, m), x);
  }

  lemma FlyingFor(w: Ends, h: set<Event>, g: set<Event>)
    requires InFlight(w, h, g)
    ensures forall e | e in g :: e in w.peer.inbox
  {
  }

  lemma CallIs(t: Program, m: Move)
    requires Clean(t) && m.Call? && Possible(t, m) && Due(t, m) && !EarlyStop(t, m)
    ensures var w := Flight(t, m.s.x); Enabled(w, m.s) && Careful(w, m.s) && Apply(w, m.s).Ok?
    ensures Do(t, m) == Ok(Stepped(t, m)) && Clean(Stepped(t, m))
  {
    hide Inv, Control, Tidy, Seen, Rest, InFlight, Careful, HoldsBack, Apply, Enabled, Resume, Good, EarlyStop;
    var x, s := m.s.x, m.s;
    var w, h, g := Flight(t, x), Held(t, x), Held(t, Other(x));
    CleanAt(t, x);
    SameEnabled(w, h, g, s);
    GoodStep(t, x, s, h);
    if s.DoStop? {
      StopHoldsNothing(w, s, h, g);
    }
    CallSame(w, h, g, s);
    CallGrows(w, s);
    FlyingFor(w, h, g);
    Resumed(w, Apply(w, s).value, h, g);
    WithIs(t, x, Apply(w, s).value, h);
    FlyingAt(Stepped(t, m), x);
  }

  lemma HoldIs(t: Program, m: Move)
    requires Clean(t) && m.Hold? && Possible(t, m)
    ensures Do(t, m).Ok? && Do(t, m).value.p == t.p && Clean(Do(t, m).value)
  {
    hide Good, Rest;
    RestIn(Flight(t, m.x).me.inbox, Held(t, m.x));
    FlyingAt(t, m.x);
    FlyingAt(Do(t, m).value, m.x);
  }

  // ---------- a session stopped while its ACCEPTED is held ----------

  function Queue(w: Ends, q: seq<Event>): Ends
  {
    w.(me := w.me.(inbox := q))
  }

  /** The same with ACCEPTED held for x besides. */
  function AddLate(b: Program, x: End): Program
  {
    var w := Flight(b, x);
    With(b, x, Queue(w, [AcceptedEv] + w.me.inbox), Held(b, x) + {AcceptedEv})
  }

  ghost predicate LateOf(t: Program, b: Program, x: End)
  {
    Clean(b) && Flight(b, x).me.state == StoppingPeer && !Flight(b, x).me.connector && t == AddLate(b, x)
  }

  /** What due moves keep. */
  ghost predicate Sound(t: Program)
  {
    Clean(t) || exists b, x :: LateOf(t, b, x)
  }

  /** The early stop, as if ACCEPTED had gone. */
  function Stopped(w: Ends): Ends
  {
    Ends(w.me.(pipe := PipeStop(w.me.pipe), state := StoppingPeer, fsm := FsmStopping),
         w.peer.(inbox := w.peer.inbox + [DisconnectEv]))
  }

  lemma EarlyFacts(w: Ends)
    requires Control(w) && w.me.state == Ready && AcceptedEv in w.me.inbox
    ensures w.me.inbox != [] && w.me.inbox[0] == AcceptedEv && AcceptedEv !in w.me.inbox[1..]
    ensures w.me.fsm == FsmActive && w.me.hasPeer && !w.me.connector && w.peer.inbox == [] && !w.peer.told
  {
    hide PipeMirrors, Tokens;
  }

  lemma StopOfReady(w: Ends)
    requires w.me.state == Ready && w.me.fsm == FsmActive && w.me.hasPeer
    requires DisconnectEv !in w.peer.inbox && !w.peer.told
    ensures Stop(w) == Ok(Stopped(w))
  {
  }

  lemma EarlyControl(w: Ends)
    requires Control(w) && w.me.state == Ready && AcceptedEv in w.me.inbox
    ensures Control(Stopped(Queue(w, w.me.inbox[1..])))
  {
    EarlyFacts(w);
    Pop(w.me.inbox, 0);
    assert TakeOff(w.me.inbox, 0) == w.me.inbox[1..];
    EarlyEvents(w, w.me.inbox[1..]);
    hide Tokens, Inbox, TakeOff;
  }

  lemma EarlyEvents(w: Ends, q: seq<Event>)
    requires Control(w) && w.me.state == Ready && AcceptedEv in w.me.inbox && w.peer.inbox == []
    requires Tidy(q) && forall e :: e in q <==> e in w.me.inbox && e != AcceptedEv
    ensures var v := Stopped(Queue(w, q));
            && Tokens(v.me, v.peer) && Tokens(v.peer, v.me) && Inbox(v.me, v.peer) && Inbox(v.peer, v.me)
  {
    hide PipeMirrors;
    assert ReadyEv !in q;
  }

  lemma EarlyFlow(w: Ends)
    requires Conserved(w.me, w.peer) && Conserved(w.peer, w.me) && w.me.inbox != [] && w.me.inbox[0] == AcceptedEv
    ensures var v := Stopped(Queue(w, w.me.inbox[1..])); Conserved(v.me, v.peer) && Conserved(v.peer, v.me)
  {
    var q := w.me.inbox;
    assert q == [q[0]] + q[1..];
  }

  function EarlyBase(t: Program, x: End): Program
    requires Flight(t, x).me.inbox != []
  {
    var w := Flight(t, x);
    With(t, x, Stopped(Queue(w, w.me.inbox[1..])), Held(t, x) - {AcceptedEv})
  }

  lemma EarlyClean(t: Program, x: End)
    requires Clean(t) && Flight(t, x).me.state == Ready && AcceptedEv in Flight(t, x).me.inbox
    ensures Flight(t, x).me.inbox != [] && Clean(EarlyBase(t, x))
  {
    var w, h := Flight(t, x), Held(t, x);
    CleanAt(t, x);
    EarlyFacts(w);
    EarlyControl(w);
    EarlyFlow(w);
    var v, b := Stopped(Queue(w, w.me.inbox[1..])), EarlyBase(t, x);
    hide Control, Conserved, Tidy, Stopped;
    WithIs(t, x, v, h - {AcceptedEv});
    EitherView(b.p, x);
    StillFlying(w, h, Held(t, Other(x)));
    FlyingAt(b, x);
  }

  lemma StillFlying(w: Ends, h: set<Event>, g: set<Event>)
    requires InFlight(w, h, g) && w.me.inbox != [] && w.me.inbox[0] == AcceptedEv
    ensures InFlight(Stopped(Queue(w, w.me.inbox[1..])), h - {AcceptedEv}, g)
  {
    assert w.me.inbox == [w.me.inbox[0]] + w.me.inbox[1..];
  }

  lemma EarlyResumes(w: Ends, h: set<Event>, g: set<Event>)
    ensures Resume(w, Stopped(Seen(w, h, g)), g) == Stopped(w)
  {
    hide Rest;
    var q := Rest(w.peer.inbox, g);
    assert Pushed(q, q + [DisconnectEv]) == [DisconnectEv];
  }

  /** The stop of an end in READY. */
  lemma ReadyStops(t: Program, x: End)
    requires var w := Flight(t, x);
             && w.me.state == Ready && w.me.fsm == FsmActive && w.me.hasPeer && DisconnectEv !in w.peer.inbox
             && !w.peer.told
    requires Possible(t, Call(DoStop(x)))
    ensures Do(t, Call(DoStop(x))) == Ok(With(t, x, Stopped(Flight(t, x)), Held(t, x)))
  {
    RestIn(Flight(t, x).peer.inbox, Held(t, Other(x)));
    hide Rest, Resume, Stop;
    StopOfReady(Queues(t, x));
    EarlyResumes(Flight(t, x), Held(t, x), Held(t, Other(x)));
  }

  /** The program after it, as the program without the ACCEPTED. */
  lemma EarlyIsLate(t: Program, x: End)
    requires var w := Flight(t, x); w.me.inbox != [] && w.me.inbox[0] == AcceptedEv && AcceptedEv in Held(t, x)
    ensures With(t, x, Stopped(Flight(t, x)), Held(t, x)) == AddLate(EarlyBase(t, x), x)
    ensures Flight(EarlyBase(t, x), x).me.state == StoppingPeer
    ensures Flight(EarlyBase(t, x), x).me.connector == Flight(t, x).me.connector
  {
    var q, h := Flight(t, x).me.inbox, Held(t, x);
    assert [AcceptedEv] + q[1..] == q;
    assert h - {AcceptedEv} + {AcceptedEv} == h;
  }

  lemma EarlyStopIs(t: Program, m: Move)
    requires Clean(t) && EarlyStop(t, m) && Possible(t, m)
    ensures Do(t, m).Ok? && Sound(Do(t, m).value)
  {
    var x := m.s.x;
    hide Do, Possible, Clean, AddLate, EarlyBase, Stopped;
    CleanAt(t, x);
    EarlyFacts(Flight(t, x));
    hide Inv, Control, Tidy, InFlight;
    EarlyClean(t, x);
    ReadyStops(t, x);
    EarlyIsLate(t, x);
    assert LateOf(Do(t, m).value, EarlyBase(t, x), x);
  }

  function Mapped(r: Result<Program>, x: End): Result<Program>
  {
    if r.Ok? then Ok(AddLate(r.value, x)) else r
  }

  predicate NotIn(b: Program, x: End)
  {
    AcceptedEv !in Flight(b, x).me.inbox && AcceptedEv !in Held(b, x)
  }

  lemma LateQueues(b: Program, x: End)
    requires NotIn(b, x)
    ensures Queues(AddLate(b, x), x) == Queues(b, x) && Queues(AddLate(b, x), Other(x)) == Queues(b, Other(x))
    ensures forall q | AcceptedEv !in q :: Rest([AcceptedEv] + q, Held(b, x) + {AcceptedEv}) == Rest(q, Held(b, x))
  {
    var h := Held(b, x);
    forall q: seq<Event> | AcceptedEv !in q ensures Rest([AcceptedEv] + q, h + {AcceptedEv}) == Rest(q, h) {
      assert ([AcceptedEv] + q)[1..] == q;
      RestWithout(q, h + {AcceptedEv}, AcceptedEv);
      assert h + {AcceptedEv} - {AcceptedEv} == h;
    }
    hide Rest;
  }

  lemma LateHold(b: Program, x: End, m: Move)
    requires NotIn(b, x) && m.Hold?
    ensures Possible(AddLate(b, x), m) <==> Possible(b, m)
    ensures Possible(b, m) ==> Do(AddLate(b, x), m) == Mapped(Do(b, m), x)
  {
    LateQueues(b, x);
    hide Rest;
    if m.x == x {
      assert Held(b, x) + {AcceptedEv} + {m.e} == Held(b, x) + {m.e} + {AcceptedEv};
    }
  }

  lemma LateCall(b: Program, x: End, m: Move)
    requires NotIn(b, x) && m.Call? && m.s.x == x
    ensures Possible(AddLate(b, x), m) <==> Possible(b, m)
    ensures Possible(b, m) ==> Do(AddLate(b, x), m) == Mapped(Do(b, m), x)
  {
    LateQueues(b, x);
    hide Rest, Apply, Seen;
  }

  function Ahead(w: Ends): Ends
  {
    Queue(w, [AcceptedEv] + w.me.inbox)
  }

  function AheadOfPeer(w: Ends): Ends
  {
    w.(peer := w.peer.(inbox := [AcceptedEv] + w.peer.inbox))
  }

  lemma LateViews(b: Program, x: End)
    ensures Flight(AddLate(b, x), x) == Ahead(Flight(b, x))
    ensures Flight(AddLate(b, x), Other(x)) == AheadOfPeer(Flight(b, Other(x)))
    ensures Held(AddLate(b, x), Other(x)) == Held(b, Other(x)) && Held(AddLate(b, x), x) == Held(b, x) + {AcceptedEv}
  {
  }

  lemma LateWith(b: Program, x: End, w: Ends, h: set<Event>)
    ensures AddLate(With(b, x, w, h), x) == With(AddLate(b, x), x, Ahead(w), h + {AcceptedEv})
    ensures AddLate(With(b, Other(x), w, h), x) == With(AddLate(b, x), Other(x), AheadOfPeer(w), h)
  {
  }

  lemma LateResume(w: Ends, v: Ends, g: set<Event>)
    ensures Resume(Ahead(w), v, g) == Ahead(Resume(w, v, g))
  {
  }

  lemma LatePeerResume(w: Ends, v: Ends, g: set<Event>)
    requires Rest([AcceptedEv] + w.peer.inbox, g + {AcceptedEv}) == Rest(w.peer.inbox, g)
    ensures Resume(AheadOfPeer(w), v, g + {AcceptedEv}) == AheadOfPeer(Resume(w, v, g))
  {
    hide Rest;
  }

  lemma LateTaken(w: Ends, e: Event)
    requires e in w.me.inbox && e != AcceptedEv
    ensures Taken(Ahead(w), Seqs.Find(Ahead(w).me.inbox, e)) == Ahead(Taken(w, Seqs.Find(w.me.inbox, e)))
  {
    var q := w.me.inbox;
    AheadAt(q, Seqs.Find(q, e));
    assert ([AcceptedEv] + q)[1..] == q;
    hide TakeOff;
  }

  lemma AheadAt(q: seq<Event>, k: nat)
    requires k < |q|
    ensures TakeOff([AcceptedEv] + q, k + 1) == [AcceptedEv] + TakeOff(q, k)
  {
  }

  lemma LateEnter(b: Program, x: End, m: Move)
    requires NotIn(b, x) && m.Enter? && m.x == x && m.e != AcceptedEv
    ensures Possible(AddLate(b, x), m) <==> Possible(b, m)
    ensures Possible(b, m) ==> Do(AddLate(b, x), m) == Mapped(Do(b, m), x)
  {
    hide Rest, Process, Seen, TakeOff, Resume, With, AddLate, Taken;
    LateQueues(b, x);
    LateViews(b, x);
    var w, h, g := Flight(b, x), Held(b, x), Held(b, Other(x));
    if Possible(b, m) && Process(Queues(b, x), m.e, m.added).Ok? {
      var v := Process(Queues(b, x), m.e, m.added).value;
      var u := Taken(w, Seqs.Find(w.me.inbox, m.e));
      LateTaken(w, m.e);
      LateResume(u, v, g);
      LateWith(b, x, Resume(u, v, g), h - {m.e});
      assert h + {AcceptedEv} - {m.e} == h - {m.e} + {AcceptedEv};
    }
  }

  /** What the peer does is done as without. */
  lemma LatePeer(b: Program, x: End, m: Move)
    requires NotIn(b, x) && !m.Hold? && EndOf(m) == Other(x)
    ensures Possible(AddLate(b, x), m) <==> Possible(b, m)
    ensures Possible(b, m) ==> Do(AddLate(b, x), m) == Mapped(Do(b, m), x)
  {
    hide Rest, Process, Apply, Seen, TakeOff, Resume, With, AddLate;
    var y := Other(x);
    LateQueues(b, x);
    LateViews(b, x);
    var w, h, g := Flight(b, y), Held(b, y), Held(b, x);
    if Possible(b, m) && Do(b, m).Ok? {
      var v := if m.Enter? then Process(Queues(b, y), m.e, m.added).value else Apply(Queues(b, y), m.s).value;
      var u := if m.Enter? then Taken(w, Seqs.Find(w.me.inbox, m.e)) else w;
      LatePeerResume(u, v, g);
      LateWith(b, x, Resume(u, v, g), if m.Enter? then h - {m.e} else h);
    }
  }

  /** Once its ACCEPTED is in, nothing is left of the early stop. */
  lemma LateAccepted(b: Program, x: End, m: Move)
    requires NotIn(b, x) && Flight(b, x).me.state == StoppingPeer && Flight(b, x).me.fsm == FsmStopping
    requires m.Enter? && m.x == x && m.e == AcceptedEv && Possible(AddLate(b, x), m)
    ensures Do(AddLate(b, x), m) == Ok(b)
  {
    var t, w, h, g := AddLate(b, x), Flight(b, x), Held(b, x), Held(b, Other(x));
    LateViews(b, x);
    FrontTaken(w);
    AcceptedIgnored(Queues(t, x), m.added);
    NothingPushed(w, h + {AcceptedEv}, g);
    hide Rest, Process, Taken, Resume, Seen, Ahead;
    SameBack(b, x, w, h);
  }

  lemma FrontTaken(w: Ends)
    ensures AcceptedEv in Ahead(w).me.inbox && Taken(Ahead(w), Seqs.Find(Ahead(w).me.inbox, AcceptedEv)) == w
  {
    assert Seqs.Find(Ahead(w).me.inbox, AcceptedEv) == 0;
    assert TakeOff([AcceptedEv] + w.me.inbox, 0) == w.me.inbox;
  }

  lemma AcceptedIgnored(w: Ends, added: bool)
    requires w.me.state == StoppingPeer && w.me.fsm == FsmStopping
    ensures Process(w, AcceptedEv, added) == Ok(w)
  {
  }

  /** A handler that left all as it was. */
  lemma NothingPushed(w: Ends, h: set<Event>, g: set<Event>)
    ensures Resume(w, Seen(Ahead(w), h, g), g) == w
  {
    hide Rest;
  }

  lemma SameBack(b: Program, x: End, w: Ends, h: set<Event>)
    requires w == Flight(b, x) && h == Held(b, x) && AcceptedEv !in h
    ensures With(AddLate(b, x), x, w, h + {AcceptedEv} - {AcceptedEv}) == b
  {
    assert h + {AcceptedEv} - {AcceptedEv} == h;
  }

  // ---------- due moves keep it ----------

  /** What is known of an end stopped early. */
  lemma LateIs(b: Program, x: End)
    requires Clean(b) && Flight(b, x).me.state == StoppingPeer
    ensures NotIn(b, x) && Flight(b, x).me.fsm == FsmStopping && Control(Flight(b, x)) && Control(Flight(b, Other(x)))
    ensures Flight(b, Other(x)).me.connector != Flight(b, x).me.connector
    ensures Flight(b, Other(x)).me.connector ==> Flight(b, Other(x)).me.state != Ready
  {
    CleanAt(b, x);
    CleanAt(b, Other(x));
    hide PipeMirrors, Tokens, Tidy, Inv;
  }

  lemma StaysLate(x: End, t: Program, c: Program)
    requires Clean(c) && Flight(c, x).me.state == StoppingPeer && !Flight(c, x).me.connector && t == AddLate(c, x)
    ensures Sound(t)
  {
    assert LateOf(t, c, x);
  }

  lemma CallsKeepState(w: Ends, s: Step)
    requires w.me.state == StoppingPeer && w.me.fsm == FsmStopping && !s.DoDeliver? && Enabled(w, s)
    ensures Careful(w, s) && forall h :: !HoldsBack(w, s, h)
    ensures Apply(w, s).Ok? ==> Apply(w, s).value.me.state == StoppingPeer
                                && Apply(w, s).value.me.connector == w.me.connector
  {
  }

  lemma LateKeepsCall(b: Program, x: End, m: Move)
    requires Clean(b) && Flight(b, x).me.state == StoppingPeer && !Flight(b, x).me.connector
    requires m.Call? && m.s.x == x && Possible(AddLate(b, x), m)
    ensures Do(AddLate(b, x), m).Ok? && Sound(Do(AddLate(b, x), m).value)
  {
    LateIs(b, x);
    LateCall(b, x, m);
    SameEnabled(Flight(b, x), Held(b, x), Held(b, Other(x)), m.s);
    CallsKeepState(Flight(b, x), m.s);
    hide Control, Clean, Apply, Enabled, Careful, HoldsBack, Do, AddLate, NotIn, Rest;
    CallIs(b, m);
    WithIs(b, x, Apply(Flight(b, x), m.s).value, Held(b, x));
    StaysLate(x, Do(AddLate(b, x), m).value, Stepped(b, m));
  }

  lemma IgnoredInTurn(w: Ends, k: nat, added: bool)
    requires Control(w) && w.me.state == StoppingPeer && k < |w.me.inbox| && w.me.inbox[k] != DisconnectEv
    ensures Careful(w, DoDeliver(A, k, added)) && Deliver(w, k, added) == Ok(Taken(w, k))
  {
    IgnoredIs(w, k);
    var q := w.me.inbox;
    assert forall i | 0 <= i < |q| :: q[i] in q;
  }

  lemma LateKeepsEnter(b: Program, x: End, m: Move)
    requires Clean(b) && Flight(b, x).me.state == StoppingPeer && !Flight(b, x).me.connector
    requires m.Enter? && m.x == x && m.e != AcceptedEv && m.e != DisconnectEv && Possible(AddLate(b, x), m)
    ensures Do(AddLate(b, x), m).Ok? && Sound(Do(AddLate(b, x), m).value)
  {
    hide Control, Clean, Deliver, Do, AddLate, NotIn, Rest, TakeOff, Due, Possible;
    LateIs(b, x);
    LateEnter(b, x, m);
    LateEnterDue(b, x, m);
    EnterIs(b, m);
    var w, s := Flight(b, x), StepOf(b, m);
    IgnoredInTurn(w, s.k, s.added);
    hide Careful, Enabled;
    WithIs(b, x, Taken(w, s.k), Held(b, x) - {m.e});
    StaysLate(x, Do(AddLate(b, x), m).value, Stepped(b, m));
  }

  lemma LateEnterDue(b: Program, x: End, m: Move)
    requires Flight(b, x).me.state == StoppingPeer && NotIn(b, x) && Control(Flight(b, x))
    requires m.Enter? && m.x == x && m.e != DisconnectEv && Possible(b, m)
    ensures Due(b, m) && m.e in Flight(b, x).me.inbox
  {
    var w, s := Flight(b, x), StepOf(b, m);
    IgnoredInTurn(w, s.k, s.added);
    hide Control, Deliver, Rest;
  }

  /** What the moves of the peer owe does not depend on who is late. */
  lemma LateDue(b: Program, x: End, m: Move)
    requires EndOf(m) == Other(x)
    ensures Due(AddLate(b, x), m) <==> Due(b, m)
    ensures EarlyStop(AddLate(b, x), m) <==> EarlyStop(b, m)
  {
    LateViews(b, x);
    hide AddLate, Late;
  }

  lemma LateKeepsPeer(b: Program, x: End, m: Move)
    requires Clean(b) && Flight(b, x).me.state == StoppingPeer && !Flight(b, x).me.connector
    requires !m.Hold? && EndOf(m) == Other(x) && Possible(AddLate(b, x), m) && Due(AddLate(b, x), m)
    ensures Do(AddLate(b, x), m).Ok? && Sound(Do(AddLate(b, x), m).value)
  {
    hide Control, Clean, Apply, Enabled, Careful, Due, Possible, Do, AddLate, NotIn, Rest, EarlyStop, Stepped;
    LateIs(b, x);
    LatePeer(b, x, m);
    LateDue(b, x, m);
    assert !EarlyStop(b, m) by { NotReady(b, m); }
    StepIs(b, m);
    PeerSteps(b, m);
    StaysLate(x, Do(AddLate(b, x), m).value, Stepped(b, m));
  }

  lemma NotReady(t: Program, m: Move)
    requires Flight(t, EndOf(m)).me.state != Ready
    ensures !EarlyStop(t, m)
  {
  }

  /** A due move other than an early stop is a careful step of Session. */
  lemma StepIs(t: Program, m: Move)
    requires Clean(t) && !m.Hold? && Possible(t, m) && Due(t, m) && !EarlyStop(t, m)
    ensures m.Enter? ==> m.e in Flight(t, m.x).me.inbox
    ensures var w := Flight(t, EndOf(m));
            Enabled(w, StepOf(t, m)) && Careful(w, StepOf(t, m)) && Apply(w, StepOf(t, m)).Ok?
    ensures Do(t, m) == Ok(Stepped(t, m)) && Clean(Stepped(t, m))
  {
    assert m.Enter? ==> m.e in Flight(t, m.x).me.inbox;
    hide Clean, Apply, Enabled, Careful, Due, Possible, Do, Rest, EarlyStop, Stepped;
    if m.Enter? {
      EnterIs(t, m);
    } else {
      CallIs(t, m);
    }
  }

  /** It leaves the state of the other end. */
  lemma PeerSteps(b: Program, m: Move)
    requires !m.Hold? && (m.Enter? ==> m.e in Flight(b, m.x).me.inbox)
    requires Enabled(Flight(b, EndOf(m)), StepOf(b, m)) && Apply(Flight(b, EndOf(m)), StepOf(b, m)).Ok?
    ensures var x := Other(EndOf(m)); var n, o := Flight(Stepped(b, m), x).me, Flight(b, x).me;
            n.state == o.state && n.connector == o.connector
  {
    hide Apply, Enabled, StepOf;
    PeerFrame(Flight(b, EndOf(m)), StepOf(b, m));
  }

  lemma LateKeepsHold(b: Program, x: End, m: Move)
    requires Clean(b) && Flight(b, x).me.state == StoppingPeer && !Flight(b, x).me.connector
    requires m.Hold? && Possible(AddLate(b, x), m)
    ensures Do(AddLate(b, x), m).Ok? && Sound(Do(AddLate(b, x), m).value)
  {
    LateIs(b, x);
    LateHold(b, x, m);
    hide Control, Clean, AddLate, NotIn, Rest;
    HoldIs(b, m);
    StaysLate(x, Do(AddLate(b, x), m).value, Do(b, m).value);
  }

  lemma SoundKept(t: Program, m: Move)
    requires Sound(t) && Possible(t, m) && Due(t, m)
    ensures Do(t, m).Ok? && Sound(Do(t, m).value)
  {
    hide Clean, Do, Due, Possible, EarlyStop, AddLate;
    if Clean(t) {
      if m.Hold? {
        HoldIs(t, m);
      } else if m.Enter? {
        EnterIs(t, m);
      } else if EarlyStop(t, m) {
        assert m.Call? by { EarlyIsStop(t, m); }
        EarlyStopIs(t, m);
      } else {
        CallIs(t, m);
      }
    } else {
      var b, x :| LateOf(t, b, x);
      if m.Hold? {
        LateKeepsHold(b, x, m);
      } else if EndOf(m) != x {
        LateKeepsPeer(b, x, m);
      } else if m.Call? {
        LateKeepsCall(b, x, m);
      } else if m.e == AcceptedEv {
        LateIs(b, x);
        LateAccepted(b, x, m);
      } else {
        NotDisconnect(b, x, m);
        LateKeepsEnter(b, x, m);
      }
    }
  }

  lemma EarlyIsStop(t: Program, m: Move)
    requires EarlyStop(t, m)
    ensures m.Call?
  {
  }

  lemma NotDisconnect(b: Program, x: End, m: Move)
    requires Flight(b, x).me.state == StoppingPeer && m.Enter? && m.x == x && Due(AddLate(b, x), m)
    ensures m.e != DisconnectEv
  {
  }

  // ---------- every run ----------

  /** No run of due moves reaches a fatal check, however long threads hold the events
      they took off. */
  lemma {:induction false} HoldingIsSafe(t: Program, moves: seq<Move>)
    requires Sound(t) && DueRun(t, moves)
    ensures Moves(t, moves).Ok? && Sound(Moves(t, moves).value)
    decreases |moves|
  {
    hide Sound, Possible, Due, Do;
    if moves != [] {
      if Possible(t, moves[0]) {
        SoundKept(t, moves[0]);
        HoldingIsSafe(Do(t, moves[0]).value, moves[1..]);
      } else {
        HoldingIsSafe(t, moves[1..]);
      }
    }
  }

  function Begin(maxA: nat, maxB: nat): Program
  {
    Program(Start(maxA, maxB), {}, {})
  }

  lemma BeginIsClean(maxA: nat, maxB: nat)
    ensures Clean(Begin(maxA, maxB))
  {
    StartIsGood(maxA, maxB);
    hide Inv, Start;
  }

  /** Where due runs lead. */
  ghost predicate Attained(t: Program)
  {
    exists maxA, maxB, moves :: DueRun(Begin(maxA, maxB), moves) && Moves(Begin(maxA, maxB), moves) == Ok(t)
  }

  lemma AttainedIsSound(t: Program)
    requires Attained(t)
    ensures Sound(t)
  {
    hide Sound, Moves, DueRun, Begin;
    var maxA, maxB, moves :| DueRun(Begin(maxA, maxB), moves) && Moves(Begin(maxA, maxB), moves) == Ok(t);
    BeginIsClean(maxA, maxB);
    assert Sound(Begin(maxA, maxB)) by { CleanIsSound(Begin(maxA, maxB)); }
    HoldingIsSafe(Begin(maxA, maxB), moves);
  }

  lemma CleanIsSound(t: Program)
    requires Clean(t)
    ensures Sound(t)
  {
  }

  /** Once nothing is queued or held, every session that was told to stop has reported. */
  lemma NothingHeld(t: Program, x: End)
    requires Attained(t) && t.p.a.inbox == [] && t.p.b.inbox == []
    ensures Flight(t, x).me.fsm != FsmStopping
  {
    AttainedIsSound(t);
    hide Attained;
    assert Clean(t);
    CleanAt(t, x);
  }

  predicate NoEarlyStop(t: Program, moves: seq<Move>)
    decreases |moves|
  {
    moves == [] ||
    if !Possible(t, moves[0]) then NoEarlyStop(t, moves[1..])
    else !EarlyStop(t, moves[0]) && (Do(t, moves[0]).Ok? ==> NoEarlyStop(Do(t, moves[0]).value, moves[1..]))
  }

  /** The steps of Session that a run takes. */
  function StepsOf(t: Program, moves: seq<Move>): seq<Step>
    decreases |moves|
  {
    if moves == [] then []
    else if !Possible(t, moves[0]) then StepsOf(t, moves[1..])
    else if Do(t, moves[0]).Abort? then []
    else
      (if moves[0].Hold? then [] else [StepOf(t, moves[0])]) + StepsOf(Do(t, moves[0]).value, moves[1..])
  }

  lemma {:induction false} RunsAsSteps(t: Program, moves: seq<Move>)
    requires Clean(t) && DueRun(t, moves) && NoEarlyStop(t, moves)
    ensures Moves(t, moves).Ok? && Clean(Moves(t, moves).value)
    ensures CarefulRun(t.p, StepsOf(t, moves)) && Run(t.p, StepsOf(t, moves)) == Ok(Moves(t, moves).value.p)
    decreases |moves|
  {
    hide Clean, Due, EarlyStop, Run, CarefulRun, StepOf, Possible, Do;
    if moves == [] {
      RunNothing(t.p);
    } else if !Possible(t, moves[0]) {
      RunsAsSteps(t, moves[1..]);
    } else {
      var m := moves[0];
      if m.Hold? {
        HoldIs(t, m);
        RunsAsSteps(Do(t, m).value, moves[1..]);
        assert StepsOf(t, moves) == StepsOf(Do(t, m).value, moves[1..]);
      } else {
        OneStepOf(t, m);
        RunsAsSteps(Do(t, m).value, moves[1..]);
        RunFirst(t.p, StepOf(t, m), StepsOf(Do(t, m).value, moves[1..]));
      }
    }
  }

  lemma OneStepOf(t: Program, m: Move)
    requires Clean(t) && Possible(t, m) && Due(t, m) && !EarlyStop(t, m) && !m.Hold?
    ensures Do(t, m).Ok? && Clean(Do(t, m).value)
    ensures m.Enter? ==> m.e in Flight(t, m.x).me.inbox
    ensures var s := StepOf(t, m); var w := View(t.p, s.x);
            && Enabled(w, s) && Careful(w, s) && Apply(w, s).Ok?
            && Do(t, m).value.p == Back(Apply(w, s).value, s.x)
  {
    StepIs(t, m);
    hide Clean, Due, EarlyStop, Possible, Do, Apply, Enabled, Careful;
  }

  /** Without an early stop threads that hold events show nothing new: everything in
      flight taken together, the state is one of Session's. */
  lemma ShowsReachable(maxA: nat, maxB: nat, moves: seq<Move>)
    requires DueRun(Begin(maxA, maxB), moves) && NoEarlyStop(Begin(maxA, maxB), moves)
    ensures Moves(Begin(maxA, maxB), moves).Ok? && Reachable(Moves(Begin(maxA, maxB), moves).value.p)
  {
    hide Moves, DueRun, NoEarlyStop, Run, CarefulRun, StepsOf, Clean, Start;
    var t := Begin(maxA, maxB);
    BeginIsClean(maxA, maxB);
    RunsAsSteps(t, moves);
    assert t.p == Start(maxA, maxB);
  }
}
