/** Runs of the whole program, from its start, that show which duties are real. */
module SessionRuns {
  import opened Outcome
  import opened Messages
  import opened Session
  import opened SessionInvariant
  import opened SessionTheorems
  import opened SessionQueues
  import opened SessionHolding
  import opened SessionFaults
  import Seqs

  // ---------- a run that reports STOPPED over a RECEIVED that a thread holds ----------

  /** Nothing is held. */
  function Bare(p: Pair): Program
  {
    Program(p, {}, {})
  }

  lemma BareIs(p: Pair, x: End)
    requires Good(p)
    ensures var w := View(p, x);
            && Clean(Bare(p)) && Queues(Bare(p), x) == w && Flight(Bare(p), x) == w && Held(Bare(p), x) == {}
            && Control(w) && Tidy(w.me.inbox)
  {
    RestAll(View(p, x).me.inbox);
    RestAll(View(p, x).peer.inbox);
    hide Inv, Rest;
    CleanAt(Bare(p), x);
  }

  /** A run that goes on with a move. */
  lemma RunThen(t: Program, m: Move, rest: seq<Move>)
    requires Possible(t, m) && Due(t, m) && Do(t, m).Ok?
    ensures Moves(t, [m] + rest) == Moves(Do(t, m).value, rest)
    ensures DueRun(t, [m] + rest) == DueRun(Do(t, m).value, rest)
  {
    hide Possible, Due, Do;
    assert ([m] + rest)[1..] == rest;
  }

  lemma HeldAlone(p: Pair, x: End, e: Event) returns (t: Program)
    requires Good(p) && e in View(p, x).me.inbox
    ensures Possible(Bare(p), Hold(x, e)) && Do(Bare(p), Hold(x, e)) == Ok(t) && Clean(t) && t.p == p
    ensures Held(t, x) == {e} && Held(t, Other(x)) == {}
  {
    BareIs(p, x);
    assert Possible(Bare(p), Hold(x, e));
    hide Good, Inv, Control, Tidy, Clean, Do, Possible, Queues;
    HoldIs(Bare(p), Hold(x, e));
    t := Do(Bare(p), Hold(x, e)).value;
    NowHeld(Bare(p), x, e);
  }

  lemma NowHeld(t: Program, x: End, e: Event)
    requires Possible(t, Hold(x, e))
    ensures var r := Do(t, Hold(x, e));
            r.Ok? && Held(r.value, x) == Held(t, x) + {e} && Held(r.value, Other(x)) == Held(t, Other(x))
  {
    hide Rest;
  }

  lemma EnterAlone(t: Program, x: End, e: Event)
    requires Clean(t) && Held(t, x) == {e} && Held(t, Other(x)) == {} && e in Flight(t, x).me.inbox
    requires var m := Enter(x, e, true);
             Enabled(Flight(t, x), StepOf(t, m)) && Careful(Flight(t, x), StepOf(t, m))
    ensures var m := Enter(x, e, true);
            var r := Deliver(Flight(t, x), Seqs.Find(Flight(t, x).me.inbox, e), true);
            && Possible(t, m) && Due(t, m) && r.Ok? && Do(t, m) == Ok(Bare(Back(r.value, x)))
            && Good(Back(r.value, x))
  {
    var m := Enter(x, e, true);
    EnterAloneIsDue(t, x, e);
    hide Inv, Deliver, Careful, InFlight, Due, Possible, Do, Enabled;
    EnterIs(t, m);
    assert {e} - {e} == {};
  }

  lemma EnterAloneIsDue(t: Program, x: End, e: Event)
    requires Clean(t) && Held(t, x) == {e} && e in Flight(t, x).me.inbox
    requires var m := Enter(x, e, true);
             Enabled(Flight(t, x), StepOf(t, m)) && Careful(Flight(t, x), StepOf(t, m))
    ensures Possible(t, Enter(x, e, true)) && Due(t, Enter(x, e, true))
  {
    CleanAt(t, x);
    hide Clean, Inv, Control, Tidy, Rest, Careful, InFlight, Seen;
  }

  /** A delivery of Session is its two moves, one right after the other. */
  lemma AtOnce(p: Pair, x: End, e: Event, rest: seq<Move>)
    requires Good(p) && e in View(p, x).me.inbox
    requires var k := Seqs.Find(View(p, x).me.inbox, e);
             Enabled(View(p, x), DoDeliver(x, k, true)) && Careful(View(p, x), DoDeliver(x, k, true))
    ensures var k := Seqs.Find(View(p, x).me.inbox, e);
            var r := Deliver(View(p, x), k, true);
            && r.Ok? && Good(Back(r.value, x))
            && Moves(Bare(p), [Hold(x, e)] + ([Enter(x, e, true)] + rest)) == Moves(Bare(Back(r.value, x)), rest)
            && DueRun(Bare(p), [Hold(x, e)] + ([Enter(x, e, true)] + rest)) == DueRun(Bare(Back(r.value, x)), rest)
  {
    hide Possible, Due, Do, Enabled, Careful, Good, Clean, Deliver, Moves, DueRun;
    var t := HeldAlone(p, x, e);
    HoldIsDue(Bare(p), x, e);
    EnterAlone(t, x, e);
    RunThen(Bare(p), Hold(x, e), [Enter(x, e, true)] + rest);
    RunThen(t, Enter(x, e, true), rest);
  }

  lemma CallAtOnce(p: Pair, s: Step, rest: seq<Move>)
    requires Good(p) && !s.DoDeliver? && Enabled(View(p, s.x), s) && Careful(View(p, s.x), s)
    ensures var r := Apply(View(p, s.x), s);
            && r.Ok? && Good(Back(r.value, s.x))
            && Moves(Bare(p), [Call(s)] + rest) == Moves(Bare(Back(r.value, s.x)), rest)
            && DueRun(Bare(p), [Call(s)] + rest) == DueRun(Bare(Back(r.value, s.x)), rest)
  {
    var t := Bare(p);
    CallAloneIsDue(p, s);
    BareIs(p, s.x);
    StepIsGood(p, s);
    hide Good, Inv, Control, Tidy, Apply, Enabled, Careful, Moves, DueRun, Possible, Due, Do, EarlyStop, Clean, Queues;
    CallIs(t, Call(s));
    assert Stepped(t, Call(s)) == Bare(Back(Apply(View(p, s.x), s).value, s.x));
    RunThen(t, Call(s), rest);
  }

  lemma CallAloneIsDue(p: Pair, s: Step)
    requires Good(p) && !s.DoDeliver? && Enabled(View(p, s.x), s) && Careful(View(p, s.x), s)
    ensures var t, m := Bare(p), Call(s); Possible(t, m) && Due(t, m) && !EarlyStop(t, m)
  {
    BareIs(p, s.x);
    hide Good, Inv, Control, Tidy, Careful, Enabled, Clean;
  }

  /** The connector has sent one message, the acceptor has taken it and answered. */
  function Exchanged(maxA: nat, maxB: nat, m: Msg): Pair
  {
    Pair(Node(true, FsmActive, Active, true, false, true,
              Pipe(PActive, InAsync, OutAsync, false, false, false, false), [], maxA, EMPTY,
              [ReceivedEv], false, 0, [m], []),
         Node(false, FsmActive, Active, false, false, true,
              Pipe(PActive, InIdle, OutIdle, false, false, true, true), [Flat(m)], maxB, EMPTY,
              [], false, 0, [], []))
  }

  function Exchange(m: Msg, rest: seq<Move>): seq<Move>
  {
    [Hold(A, ReadyEv)] + ([Enter(A, ReadyEv, true)] + ([Call(DoTakeOut(A))] + ([Call(DoSend(A, m))] + (
    [Hold(B, AcceptedEv)] + ([Enter(B, AcceptedEv, true)] + ([Call(DoTakeOut(B))] + (
    [Hold(B, SentEv)] + ([Enter(B, SentEv, true)] + ([Call(DoTakeIn(B))] + rest)))))))))
  }

  /** Due moves lead to a state where the connector has said its last word, and only a
      RECEIVED that a thread holds is on its way to it. */
  lemma ExchangeLeads(maxA: nat, maxB: nat, m: Msg, rest: seq<Move>)
    ensures Good(Exchanged(maxA, maxB, m))
    ensures var t := Bare(Exchanged(maxA, maxB, m));
            && Moves(Begin(maxA, maxB), Exchange(m, rest)) == Moves(t, rest)
            && DueRun(Begin(maxA, maxB), Exchange(m, rest)) == DueRun(t, rest)
  {
    hide Moves, DueRun, Good;
    var h2 := [Hold(B, SentEv)] + ([Enter(B, SentEv, true)] + ([Call(DoTakeIn(B))] + rest));
    var h1 := [Hold(B, AcceptedEv)] + ([Enter(B, AcceptedEv, true)] + ([Call(DoTakeOut(B))] + h2));
    ConnectorHears(maxA, maxB, [Call(DoSend(A, m))] + h1);
    ConnectorSends(maxA, maxB, m, h1);
    AcceptorStarts(maxA, maxB, m, h2);
    AcceptorTakes(maxA, maxB, m, rest);
  }

  /** The connector's session when it has sent the message. */
  function Sender(maxA: nat, m: Msg): Node
  {
    Node(true, FsmActive, Active, true, false, true, Pipe(PActive, InAsync, OutAsync, false, false, false, false),
         [], maxA, Flat(m), [], false, 0, [m], [])
  }

  function Waiter(maxB: nat): Node
  {
    Node(false, FsmActive, Ready, false, false, true, FRESH_PIPE, [], maxB, EMPTY,
         [AcceptedEv, SentEv], false, 0, [], [])
  }

  function Taker(maxB: nat): Node
  {
    Waiter(maxB).(state := Active, inbox := [SentEv],
                  pipe := Pipe(PActive, InAsync, OutIdle, false, false, false, true))
  }

  /** The pair when the connector has heard READY and its pipe is writable. */
  function Hearer(maxA: nat, maxB: nat): Pair
  {
    Pair(Sender(maxA, EMPTY).(sending := false, accepted := [],
                              pipe := Pipe(PActive, InAsync, OutIdle, false, false, false, true)),
         Waiter(maxB).(inbox := [AcceptedEv]))
  }

  lemma ConnectorHears(maxA: nat, maxB: nat, rest: seq<Move>)
    ensures var q := Hearer(maxA, maxB);
            var first := [Hold(A, ReadyEv)] + ([Enter(A, ReadyEv, true)] + ([Call(DoTakeOut(A))] + rest));
            && Good(q) && Moves(Begin(maxA, maxB), first) == Moves(Bare(q), rest)
            && DueRun(Begin(maxA, maxB), first) == DueRun(Bare(q), rest)
  {
    StartIsGood(maxA, maxB);
    var p := Start(maxA, maxB);
    hide Good, Inv, Moves, DueRun;
    ReadyStep(View(p, A));
    AtOnce(p, A, ReadyEv, [Call(DoTakeOut(A))] + rest);
    var w1 := AfterReady(Taken(View(p, A), 0));
    hide Deliver;
    CallAtOnce(Back(w1, A), DoTakeOut(A), rest);
    var w2 := w1.(me := w1.me.(pipe := TakeOut(w1.me.pipe)));
    assert Back(w2, A) == Hearer(maxA, maxB);
  }

  lemma ConnectorSends(maxA: nat, maxB: nat, m: Msg, rest: seq<Move>)
    requires Good(Hearer(maxA, maxB))
    ensures var p, q := Hearer(maxA, maxB), Pair(Sender(maxA, m), Waiter(maxB));
            && Good(q) && Moves(Bare(p), [Call(DoSend(A, m))] + rest) == Moves(Bare(q), rest)
            && DueRun(Bare(p), [Call(DoSend(A, m))] + rest) == DueRun(Bare(q), rest)
  {
    var p := Hearer(maxA, maxB);
    hide Good, Inv, Moves, DueRun;
    CallAtOnce(p, DoSend(A, m), rest);
    assert Back(PipeSend(View(p, A), m).value, A) == Pair(Sender(maxA, m), Waiter(maxB));
  }

  lemma AcceptorStarts(maxA: nat, maxB: nat, m: Msg, rest: seq<Move>)
    requires Good(Pair(Sender(maxA, m), Waiter(maxB)))
    ensures var p, q := Pair(Sender(maxA, m), Waiter(maxB)), Pair(Sender(maxA, m), Taker(maxB));
            var first := [Hold(B, AcceptedEv)] + ([Enter(B, AcceptedEv, true)] + ([Call(DoTakeOut(B))] + rest));
            && Good(q) && Moves(Bare(p), first) == Moves(Bare(q), rest)
            && DueRun(Bare(p), first) == DueRun(Bare(q), rest)
  {
    var p := Pair(Sender(maxA, m), Waiter(maxB));
    hide Good, Inv, Moves, DueRun;
    AtOnce(p, B, AcceptedEv, [Call(DoTakeOut(B))] + rest);
    var w1 := Deliver(View(p, B), 0, true).value;
    CallAtOnce(Back(w1, B), DoTakeOut(B), rest);
    var w2 := w1.(me := w1.me.(pipe := TakeOut(w1.me.pipe)));
    assert Back(w2, B) == Pair(Sender(maxA, m), Taker(maxB));
  }

  lemma AcceptorTakes(maxA: nat, maxB: nat, m: Msg, rest: seq<Move>)
    requires Good(Pair(Sender(maxA, m), Taker(maxB)))
    ensures var p, q := Pair(Sender(maxA, m), Taker(maxB)), Exchanged(maxA, maxB, m);
            var first := [Hold(B, SentEv)] + ([Enter(B, SentEv, true)] + ([Call(DoTakeIn(B))] + rest));
            && Good(q) && Moves(Bare(p), first) == Moves(Bare(q), rest)
            && DueRun(Bare(p), first) == DueRun(Bare(q), rest)
  {
    var p := Pair(Sender(maxA, m), Taker(maxB));
    hide Good, Inv, Moves, DueRun;
    AtOnce(p, B, SentEv, [Call(DoTakeIn(B))] + rest);
    var w1 := Deliver(View(p, B), 0, true).value;
    CallAtOnce(Back(w1, B), DoTakeIn(B), rest);
    var w2 := w1.(me := w1.me.(pipe := TakeIn(w1.me.pipe)));
    assert Back(w2, B) == Exchanged(maxA, maxB, m);
  }

  /** Both sessions when the acceptor was stopped. */
  function Farewell(maxA: nat, maxB: nat, m: Msg): Pair
  {
    var p := Exchanged(maxA, maxB, m);
    Pair(p.a.(inbox := [ReceivedEv, DisconnectEv]),
         p.b.(state := StoppingPeer, fsm := FsmStopping, pipe := PipeStop(p.b.pipe)))
  }

  /** ... and when the connector has answered, its RECEIVED still held. */
  function LastWord(maxA: nat, maxB: nat, m: Msg): Program
  {
    var p := Farewell(maxA, maxB, m);
    Program(Pair(p.a.(state := Disconnected, hasPeer := false, pipe := PipeStop(p.a.pipe), inbox := [ReceivedEv]),
                 p.b.(inbox := [DisconnectEv])),
            {ReceivedEv}, {})
  }

  function Parting(rest: seq<Move>): seq<Move>
  {
    [Hold(A, ReceivedEv)] + ([Call(DoStop(B))] + (
    [Hold(A, DisconnectEv)] + ([Enter(A, DisconnectEv, true)] + ([Call(DoOwner(A))] + rest))))
  }

  lemma RestOf(e: Event, f: Event, h: set<Event>)
    ensures Rest([e], h) == if e in h then [] else [e]
    ensures Rest([e, f], h) == (if e in h then [] else [e]) + (if f in h then [] else [f])
    ensures Rest([], h) == []
  {
    assert [e, f][1..] == [f] && [e][1..] == [] && [f][1..] == [];
  }

  /** The connector's RECEIVED is held. */
  function Keeping(p: Pair): Program
  {
    Program(p, {ReceivedEv}, {})
  }

  lemma StopMakes(maxA: nat, maxB: nat, m: Msg)
    requires Clean(Keeping(Exchanged(maxA, maxB, m)))
    ensures var t, s := Keeping(Exchanged(maxA, maxB, m)), Call(DoStop(B));
            && Possible(t, s) && Due(t, s) && Do(t, s) == Ok(Keeping(Farewell(maxA, maxB, m)))
            && Clean(Keeping(Farewell(maxA, maxB, m)))
  {
    var t, s := Keeping(Exchanged(maxA, maxB, m)), Call(DoStop(B));
    hide Clean, Rest;
    assert Possible(t, s) && Due(t, s) && !EarlyStop(t, s);
    hide Possible, Due, Do, EarlyStop;
    hide Apply;
    CallIs(t, s);
    StopParts(maxA, maxB, m);
  }

  lemma StopParts(maxA: nat, maxB: nat, m: Msg)
    ensures Apply(View(Exchanged(maxA, maxB, m), B), DoStop(B)) == Ok(View(Farewell(maxA, maxB, m), B))
  {
    StopsActive(View(Exchanged(maxA, maxB, m), B));
    hide Stop;
    assert [ReceivedEv] + [DisconnectEv] == [ReceivedEv, DisconnectEv];
  }

  lemma AcceptorStops(maxA: nat, maxB: nat, m: Msg, rest: seq<Move>)
    requires Good(Exchanged(maxA, maxB, m))
    ensures var t, u := Bare(Exchanged(maxA, maxB, m)), Keeping(Farewell(maxA, maxB, m));
            var first := [Hold(A, ReceivedEv)] + ([Call(DoStop(B))] + rest);
            Clean(u) && Moves(t, first) == Moves(u, rest) && DueRun(t, first) == DueRun(u, rest)
  {
    var p := Exchanged(maxA, maxB, m);
    hide Good, Clean, Moves, DueRun, Possible, Due, Do;
    var t := HeldAlone(p, A, ReceivedEv);
    assert t == Keeping(p);
    HoldIsDue(Bare(p), A, ReceivedEv);
    StopMakes(maxA, maxB, m);
    RunThen(Bare(p), Hold(A, ReceivedEv), [Call(DoStop(B))] + rest);
    RunThen(t, Call(DoStop(B)), rest);
  }

  /** DISCONNECT is held as well. */
  function Both(maxA: nat, maxB: nat, m: Msg): Program
  {
    Program(Farewell(maxA, maxB, m), {ReceivedEv} + {DisconnectEv}, {})
  }

  lemma BothMakes(maxA: nat, maxB: nat, m: Msg)
    requires Clean(Keeping(Farewell(maxA, maxB, m)))
    ensures var t, h := Keeping(Farewell(maxA, maxB, m)), Hold(A, DisconnectEv);
            Possible(t, h) && Do(t, h) == Ok(Both(maxA, maxB, m)) && Clean(Both(maxA, maxB, m))
  {
    var t, h := Keeping(Farewell(maxA, maxB, m)), Hold(A, DisconnectEv);
    RestOf(ReceivedEv, DisconnectEv, {ReceivedEv});
    hide Clean, Rest;
    HoldIs(t, h);
  }

  /** It answers, and its owner has not been told yet. */
  function Replying(maxA: nat, maxB: nat, m: Msg): Program
  {
    var t := LastWord(maxA, maxB, m);
    t.(p := t.p.(a := t.p.a.(told := true)))
  }

  lemma AnswerMakes(maxA: nat, maxB: nat, m: Msg)
    requires Clean(Both(maxA, maxB, m))
    ensures var t, e := Both(maxA, maxB, m), Enter(A, DisconnectEv, true);
            && Possible(t, e) && Due(t, e) && Do(t, e) == Ok(Replying(maxA, maxB, m))
            && Clean(Replying(maxA, maxB, m))
  {
    var t, e := Both(maxA, maxB, m), Enter(A, DisconnectEv, true);
    AnswerIsDue(maxA, maxB, m);
    hide Clean, Possible, Due, Do, Deliver;
    EnterIs(t, e);
    AnswerIs(maxA, maxB, m);
    assert {ReceivedEv} + {DisconnectEv} - {DisconnectEv} == {ReceivedEv};
  }

  lemma AnswerIsDue(maxA: nat, maxB: nat, m: Msg)
    ensures var t, e := Both(maxA, maxB, m), Enter(A, DisconnectEv, true);
            Possible(t, e) && Due(t, e) && Seqs.Find(t.p.a.inbox, DisconnectEv) == 1
  {
    assert Seqs.Find(Both(maxA, maxB, m).p.a.inbox, DisconnectEv) == 1;
    hide Rest;
  }

  lemma AnswerIs(maxA: nat, maxB: nat, m: Msg)
    ensures Deliver(View(Farewell(maxA, maxB, m), A), 1, true) == Ok(View(Replying(maxA, maxB, m).p, A))
  {
    assert TakeOff([ReceivedEv, DisconnectEv], 1) == [ReceivedEv];
    assert [] + [DisconnectEv] == [DisconnectEv];
  }

  lemma OwnerMakes(maxA: nat, maxB: nat, m: Msg)
    requires Clean(Replying(maxA, maxB, m))
    ensures var t, o := Replying(maxA, maxB, m), Call(DoOwner(A));
            && Possible(t, o) && Due(t, o) && Do(t, o) == Ok(LastWord(maxA, maxB, m))
  {
    var t, o := Replying(maxA, maxB, m), Call(DoOwner(A));
    hide Clean, Rest;
    assert Possible(t, o) && Due(t, o) && !EarlyStop(t, o);
    hide Possible, Due, Do, EarlyStop;
    CallIs(t, o);
  }

  lemma ConnectorAnswers(maxA: nat, maxB: nat, m: Msg, rest: seq<Move>)
    requires Clean(Keeping(Farewell(maxA, maxB, m)))
    ensures var t, u := Keeping(Farewell(maxA, maxB, m)), LastWord(maxA, maxB, m);
            var first := [Hold(A, DisconnectEv)] + ([Enter(A, DisconnectEv, true)] + ([Call(DoOwner(A))] + rest));
            Moves(t, first) == Moves(u, rest) && DueRun(t, first) == DueRun(u, rest)
  {
    hide Clean, Moves, DueRun, Possible, Due, Do;
    var t := Keeping(Farewell(maxA, maxB, m));
    var e, o := Enter(A, DisconnectEv, true), Call(DoOwner(A));
    BothMakes(maxA, maxB, m);
    HoldIsDue(t, A, DisconnectEv);
    AnswerMakes(maxA, maxB, m);
    OwnerMakes(maxA, maxB, m);
    RunThen(t, Hold(A, DisconnectEv), [e] + ([o] + rest));
    RunThen(Both(maxA, maxB, m), e, [o] + rest);
    RunThen(Replying(maxA, maxB, m), o, rest);
  }

  /** The stop reports STOPPED over the RECEIVED, which then reaches a session that is idle. */
  lemma TooLate(maxA: nat, maxB: nat, m: Msg)
    ensures var t, s := LastWord(maxA, maxB, m), Call(DoStop(A));
            && Possible(t, s) && HoldsBack(Flight(t, A), DoStop(A), Held(t, A))
            && Moves(t, [s] + ([Enter(A, ReceivedEv, true)] + [])) == Abort(SinprocC, 415)
  {
    var t, s, e := LastWord(maxA, maxB, m), Call(DoStop(A)), Enter(A, ReceivedEv, true);
    RestOf(ReceivedEv, ReceivedEv, {ReceivedEv});
    RestOf(DisconnectEv, DisconnectEv, {});
    hide Rest, Resume;
    assert Possible(t, s);
    var v := Queues(t, A);
    var r := Stop(v).value;
    assert Stop(v).Ok? && r.me.state == Stopping && r.me.fsm == FsmIdle && !Pending(r.me);
    ResumeKeeps(Flight(t, A), r, {});
    WithIs(t, A, Resume(Flight(t, A), r, {}), {ReceivedEv});
    var u := Do(t, s).value;
    assert Possible(u, e) && Do(u, e) == Abort(SinprocC, 415);
    hide Possible, Do;
    assert ([s] + ([e] + []))[1..] == [e] + [];
  }

  /** From the start every duty is kept but the last: the connector is stopped while a
      thread holds its RECEIVED. */
  lemma ReceivedComesTooLate(maxA: nat, maxB: nat, m: Msg)
    ensures DueRun(Begin(maxA, maxB), Exchange(m, Parting([])))
    ensures Moves(Begin(maxA, maxB), Exchange(m, Parting([]))) == Ok(LastWord(maxA, maxB, m))
    ensures Moves(Begin(maxA, maxB), Exchange(m, Parting([Call(DoStop(A))] + ([Enter(A, ReceivedEv, true)] + [])))) ==
            Abort(SinprocC, 415)
  {
    hide Moves, DueRun, Good, Clean, Begin, LastWord, Exchanged;
    var last := [Call(DoStop(A))] + ([Enter(A, ReceivedEv, true)] + []);
    LeadsToLastWord(maxA, maxB, m, []);
    LeadsToLastWord(maxA, maxB, m, last);
    TooLate(maxA, maxB, m);
    NothingDone(LastWord(maxA, maxB, m));
  }

  lemma NothingDone(t: Program)
    ensures Moves(t, []) == Ok(t) && DueRun(t, [])
  {
  }

  lemma LeadsToLastWord(maxA: nat, maxB: nat, m: Msg, rest: seq<Move>)
    ensures var t := LastWord(maxA, maxB, m);
            && Moves(Begin(maxA, maxB), Exchange(m, Parting(rest))) == Moves(t, rest)
            && DueRun(Begin(maxA, maxB), Exchange(m, Parting(rest))) == DueRun(t, rest)
  {
    hide Moves, DueRun, Good, Clean, Exchanged, Farewell;
    var answer := [Hold(A, DisconnectEv)] + ([Enter(A, DisconnectEv, true)] + ([Call(DoOwner(A))] + rest));
    ExchangeLeads(maxA, maxB, m, Parting(rest));
    AcceptorStops(maxA, maxB, m, answer);
    ConnectorAnswers(maxA, maxB, m, rest);
  }

  // ---------- how an event gets out of turn, and which order does not matter ----------

  function Sending(m: Msg, rest: seq<Move>): seq<Move>
  {
    [Hold(A, ReadyEv)] + ([Enter(A, ReadyEv, true)] + ([Call(DoTakeOut(A))] + ([Call(DoSend(A, m))] + rest)))
  }

  /** ACCEPTED and SENT are raised from two stays in the connector's context, so two
      threads may carry them: if SENT is entered first, the acceptor is not ready for it. */
  lemma SentPassesAccepted(maxA: nat, maxB: nat, m: Msg)
    ensures DueRun(Begin(maxA, maxB), Sending(m, [Hold(B, SentEv)]))
    ensures Moves(Begin(maxA, maxB), Sending(m, [Hold(B, SentEv)] + ([Enter(B, SentEv, true)] + []))) ==
            Abort(SinprocC, 334)
  {
    hide Moves, DueRun, Good;
    var p := Pair(Sender(maxA, m), Waiter(maxB));
    var last := [Hold(B, SentEv)] + ([Enter(B, SentEv, true)] + []);
    ConnectorHears(maxA, maxB, [Call(DoSend(A, m))] + [Hold(B, SentEv)]);
    ConnectorSends(maxA, maxB, m, [Hold(B, SentEv)]);
    ConnectorHears(maxA, maxB, [Call(DoSend(A, m))] + last);
    ConnectorSends(maxA, maxB, m, last);
    HoldIsDue(Bare(p), B, SentEv);
    var t := HeldAlone(p, B, SentEv);
    RunThen(Bare(p), Hold(B, SentEv), [Enter(B, SentEv, true)] + []);
    assert [Hold(B, SentEv)] + [] == [Hold(B, SentEv)];
    RunThen(Bare(p), Hold(B, SentEv), []);
    NothingDone(t);
    NotReadyForSent(t);
  }

  lemma NotReadyForSent(t: Program)
    requires Flight(t, B).me.state == Ready && Flight(t, B).me.fsm == FsmActive && !Pending(Flight(t, B).me)
    requires SentEv in Flight(t, B).me.inbox && SentEv in Held(t, B)
    ensures Moves(t, [Enter(B, SentEv, true)] + []) == Abort(SinprocC, 334)
  {
    hide Rest;
    assert Process(Queues(t, B), SentEv, true) == Abort(SinprocC, 334);
    hide Process;
  }

  lemma OrderDoesNotMatter(u: Ends)
    requires !Pending(u.me)
    ensures Settle(AfterReceived(Settle(AfterSent(u)))) == Settle(AfterSent(Settle(AfterReceived(u))))
  {
    hide Full;
    assert Full(AfterReceived(u).me.queue, u.me.maxmem, u.peer.msg) == Full(u.me.queue, u.me.maxmem, u.peer.msg);
  }

  /** What a handler does to a state does not depend on the inbox. */
  lemma InboxApart(w: Ends, q: seq<Event>)
    ensures Settle(AfterSent(w.(me := w.me.(inbox := q)))) ==
            var v := Settle(AfterSent(w)); v.(me := v.me.(inbox := q))
    ensures Settle(AfterReceived(w.(me := w.me.(inbox := q)))) ==
            var v := Settle(AfterReceived(w)); v.(me := v.me.(inbox := q))
  {
    hide Full;
    assert AfterSent(w.(me := w.me.(inbox := q))) == AfterSent(w).(me := AfterSent(w).me.(inbox := q));
  }

  /** One SENT or RECEIVED, delivered and settled. */
  lemma SettledDelivery(w: Ends, k: nat)
    requires Inv(w) && !Pending(w.me) && w.me.state == Active && k < |w.me.inbox|
    requires w.me.inbox[k] == SentEv || w.me.inbox[k] == ReceivedEv
    ensures Deliver(w, k, true).Ok?
    ensures var v := Settle(Deliver(w, k, true).value);
            && Inv(v) && !Pending(v.me) && v.me.state == Active && v.me.inbox == TakeOff(w.me.inbox, k)
            && v == Settle(if w.me.inbox[k] == SentEv then AfterSent(Taken(w, k)) else AfterReceived(Taken(w, k)))
  {
    if w.me.inbox[k] == SentEv {
      SentIs(w, k);
      SentControl(w, k);
      SentFlow(w, k);
    } else {
      ReceivedStep(w, k);
      DeliverReceived(w, k);
    }
    hide Half, Conserved;
    SettleKeeps(Deliver(w, k, true).value);
  }

  /** SENT and RECEIVED commute. */
  lemma SentReceivedCommute(w: Ends)
    requires Inv(w) && !Pending(w.me) && w.me.state == Active && |w.me.inbox| >= 2
    requires (w.me.inbox[0] == SentEv && w.me.inbox[1] == ReceivedEv)
          || (w.me.inbox[0] == ReceivedEv && w.me.inbox[1] == SentEv)
    ensures Deliver(w, 0, true).Ok? && Deliver(w, 1, true).Ok?
    ensures var v0, v1 := Settle(Deliver(w, 0, true).value), Settle(Deliver(w, 1, true).value);
            && v0.me.inbox != [] && v1.me.inbox != []
            && Deliver(v0, 0, true).Ok? && Deliver(v1, 0, true).Ok?
            && Settle(Deliver(v0, 0, true).value) == Settle(Deliver(v1, 0, true).value)
  {
    hide Inv, Deliver, Settle, AfterSent, AfterReceived;
    SettledDelivery(w, 0);
    SettledDelivery(w, 1);
    var v0, v1 := Settle(Deliver(w, 0, true).value), Settle(Deliver(w, 1, true).value);
    assert v0.me.inbox[0] == w.me.inbox[1] && v1.me.inbox[0] == w.me.inbox[0];
    SettledDelivery(v0, 0);
    SettledDelivery(v1, 0);
    var rest := w.me.inbox[2..];
    var u := w.(me := w.me.(inbox := rest));
    assert TakeOff(v0.me.inbox, 0) == rest && TakeOff(v1.me.inbox, 0) == rest;
    InboxApart(w, TakeOff(w.me.inbox, 0));
    InboxApart(w, TakeOff(w.me.inbox, 1));
    InboxApart(w, rest);
    assert Taken(v0, 0) == Settle(if w.me.inbox[0] == SentEv then AfterSent(u) else AfterReceived(u));
    assert Taken(v1, 0) == Settle(if w.me.inbox[1] == SentEv then AfterSent(u) else AfterReceived(u));
    OrderDoesNotMatter(u);
  }
}
