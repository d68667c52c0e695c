/** What holds of a socket over whole runs. */
module SockTheorems {
  import opened Outcome
  import opened Seqs
  import opened Socks
  import opened SockProofs
  import opened CInts
  import D = Deadlines

  lemma CreatedIsGood(hasStop: bool)
    ensures Inv(Created(hasStop))
  {
  }

  /** Careful callers never meet a fatal check. */
  lemma {:induction false} RunIsSafe(s: Sock, ops: seq<Op>)
    requires Inv(s) && Legal(s, ops, true)
    ensures Run(s, ops).Ok? && Inv(Run(s, ops).value)
    decreases |ops|
  {
    hide Inv, Apply, Enabled, Careful;
    if ops != [] {
      StepKeeps(s, ops[0]);
      RunIsSafe(Apply(s, ops[0]).value, ops[1..]);
    }
  }

  /** After any run: every endpoint ever added is in exactly one of eps, sdeps and
      the freed ones; the count of connections is that of the active pipes; the
      protocol is destroyed and termsem posted at most once, and only when every
      endpoint is freed, every pipe detached and no event pending. */
  lemma EverythingSeenOff(hasStop: bool, ops: seq<Op>)
    requires Legal(Created(hasStop), ops, true)
    ensures Run(Created(hasStop), ops).Ok?
    ensures var t := Run(Created(hasStop), ops).value;
            && (forall e: nat :: Places(t, e) == if 1 <= e < t.eid then 1 else 0)
            && t.connections == |AttachedPipes(t)|
            && t.destroyed == t.posted == (if t.state == Fini then 1 else 0)
            && (t.state in {Stopping, Fini} ==>
                  t.eps == [] && t.sdeps == [] && t.connections == 0 && forall e | 1 <= e < t.eid :: e in t.freed)
            && (t.state == Fini ==> t.events == [])
  {
    CreatedIsGood(hasStop);
    RunIsSafe(Created(hasStop), ops);
    var t := Run(Created(hasStop), ops).value;
    if t.state in {Stopping, Fini} {
      AllFreed(t);
    }
  }

  lemma AllFreed(t: Sock)
    requires Inv(t) && t.state in {Stopping, Fini}
    ensures t.connections == 0 && forall e | 1 <= e < t.eid :: e in t.freed
  {
    hide EventsInv;
    forall p ensures p !in AttachedPipes(t) {
      assert !Attached(t, p);
    }
    assert AttachedPipes(t) == {};
    forall e | 1 <= e < t.eid ensures e in t.freed {
      assert Places(t, e) == 1;
    }
  }

  /** From the stop on, whatever the callers do, holds are refused and the socket
      lets no send or recv in. */
  lemma {:induction false} StopIsFinal(s: Sock, ops: seq<Op>)
    requires s.stopping && !Usable(s) && Run(s, ops).Ok?
    ensures var t := Run(s, ops).value; t.stopping && !Usable(t) && Hold(t) == t
    decreases |ops|
  {
    if ops != [] {
      StopIsFinal(Apply(s, ops[0]).value, ops[1..]);
    }
  }

  /** A send or recv whose turn comes after the stop, as its first or after waiting,
      ends there with -EBADF, without asking the protocol or waiting again. */
  lemma CallsAreRefused(s: Sock, ops: seq<Op>, turns: seq<D.Turn>, i: nat, dontwait: bool,
                        deadline: nat, read: nat, timeout: int, flag: bool)
    requires s.stopping && !Usable(s) && Run(s, ops).Ok? && deadline < U64
    requires i < |turns| && turns[i].usable == Usable(Run(s, ops).value)
    requires forall j | 0 <= j < i :: D.EndOf(turns[j], dontwait) == D.Unfinished
    ensures var r := D.Loop(turns, dontwait, deadline, read, timeout, flag); r.ending == D.Closed && |r.waits| == i
  {
    StopIsFinal(s, ops);
    ClosedAt(turns, i, dontwait, deadline, read, timeout, flag);
  }

  lemma {:induction false} ClosedAt(turns: seq<D.Turn>, i: nat, dontwait: bool,
                                    deadline: nat, read: nat, timeout: int, flag: bool)
    requires deadline < U64 && i < |turns| && !turns[i].usable
    requires forall j | 0 <= j < i :: D.EndOf(turns[j], dontwait) == D.Unfinished
    ensures var r := D.Loop(turns, dontwait, deadline, read, timeout, flag); r.ending == D.Closed && |r.waits| == i
    decreases i
  {
    if i > 0 {
      var t := turns[0];
      assert D.EndOf(t, dontwait) == D.Unfinished;
      assert forall j | 0 <= j < i - 1 :: turns[1..][j] == turns[j + 1];
      ClosedAt(turns[1..], i - 1, dontwait, deadline, if t.option >= 0 then t.now else read,
        if t.option >= 0 then D.Remaining(deadline, t.now) else timeout, flag || t.signalled);
    }
  }

  // ---------- completion ----------

  lemma Prepend(s: Sock, op: Op, ops: seq<Op>)
    requires Enabled(s, op) && Careful(s, op)
    requires Apply(s, op).Ok? ==> Legal(Apply(s, op).value, ops, true)
    ensures Legal(s, [op] + ops, true)
    ensures Run(s, [op] + ops) == if Apply(s, op).Ok? then Run(Apply(s, op).value, ops) else Apply(s, op)
  {
  }

  lemma PipesOf(s: Sock, p: nat)
    requires Inv(s) && Attached(s, p)
    ensures StopPipe(s, p).Ok? && StopPipe(s, p).value.connections == s.connections - 1 >= 0
    ensures StopPipe(s, p).value.sdeps == s.sdeps
  {
    StopPipeKeeps(s, p);
    InAttached(s, p);
  }

  /** Taking an event never adds an endpoint or a connection. */
  lemma DispatchShrinks(s: Sock)
    requires Inv(s) && s.stopping && s.events != []
    ensures var r := Apply(s, Dispatch);
            && r.Ok? && r.value.stopping && r.value.connections == s.connections
            && (if s.events[0].EpStopped? then |r.value.sdeps| < |s.sdeps| else r.value.sdeps == s.sdeps)
            && |r.value.events| < |s.events|
  {
    hide EndpointsInv, PipesInv, Without;
    DispatchKeeps(s);
    if s.events[0].EpStopped? {
      assert s.events[0] in s.events;
      WithoutMultiset(s.sdeps, s.events[0].ep);
      assert |multiset(Without(s.sdeps, s.events[0].ep))| == |multiset(s.sdeps)| - 1;
    }
  }

  /** One endpoint without pipes says its last word and goes. */
  lemma EpLeaves(s: Sock, ep: nat)
    requires Inv(s) && s.state == StoppingEps && s.events == [] && ep in s.sdeps
    requires forall p | Attached(s, p) :: s.pipes[p].ep != ep
    ensures Enabled(s, EpReports(ep))
    ensures var t := Apply(s, EpReports(ep)).value;
            && Inv(t) && t.stopping && t.events != []
            && Apply(t, Dispatch).Ok? && Inv(Apply(t, Dispatch).value) && Apply(t, Dispatch).value.stopping
            && |Apply(t, Dispatch).value.sdeps| < |s.sdeps|
  {
    hide Inv;
    PushKeeps(s, EpStopped(ep));
    var t := Apply(s, EpReports(ep)).value;
    assert t.events == [EpStopped(ep)];
    DispatchKeeps(t);
    DispatchShrinks(t);
  }

  /** A stop can always be completed: the protocol destroyed, termsem posted. */
  lemma StopCompletes(s: Sock) returns (ops: seq<Op>)
    requires Inv(s) && s.stopping
    ensures Legal(s, ops, true) && Run(s, ops).Ok?
    ensures Run(s, ops).value.state == Fini && Run(s, ops).value.posted == 1
    ensures Run(s, ops).value.holds == s.holds && Run(s, ops).value.released == s.released
    ensures forall op | op in ops :: op != DoRele
    decreases |s.sdeps|, s.connections, |s.events|
  {
    hide EndpointsInv, EventsInv, PipesInv, Legal, Run;
    if s.state == Fini {
      ops := [];
      assert Legal(s, [], true) && Run(s, []) == Ok(s) by { Nothing(s); }
    } else if s.events != [] {
      DispatchKeeps(s);
      DispatchShrinks(s);
      var rest := StopCompletes(Apply(s, Dispatch).value);
      Prepend(s, Dispatch, rest);
      ops := [Dispatch] + rest;
    } else if s.state == Stopping {
      PushKeeps(s, SockStopped);
      var t := Apply(s, ProtocolReports).value;
      DispatchKeeps(t);
      var u := Apply(t, Dispatch).value;
      Nothing(u);
      Prepend(t, Dispatch, []);
      Prepend(s, ProtocolReports, [Dispatch] + []);
      ops := [ProtocolReports] + ([Dispatch] + []);
    } else {
      var ep := s.sdeps[0];
      if p :| Attached(s, p) && s.pipes[p].ep == ep {
        PipesOf(s, p);
        StopPipeKeeps(s, p);
        var rest := StopCompletes(StopPipe(s, p).value);
        Prepend(s, DoStopPipe(p), rest);
        ops := [DoStopPipe(p)] + rest;
      } else {
        EpLeaves(s, ep);
        var t := Apply(s, EpReports(ep)).value;
        var rest := StopCompletes(Apply(t, Dispatch).value);
        Prepend(t, Dispatch, rest);
        Prepend(s, EpReports(ep), [Dispatch] + rest);
        ops := [EpReports(ep)] + ([Dispatch] + rest);
      }
    }
  }

  lemma Nothing(s: Sock)
    ensures Legal(s, [], true) && Run(s, []) == Ok(s)
  {
  }

  // ---------- what careless callers do ----------

  /** A step that leaves the endpoints alone does not see the stray one. */
  lemma StraySteps(s: Sock, op: Op)
    requires Inv(s) && s.state == StoppingEps && Enabled(s, op) && Careful(s, op)
    requires op == Dispatch || op.DoStopPipe? || op.EpReports?
    ensures var t := Apply(s, op);
            && t.Ok? && Enabled(AddEp(s, true), op) && Careful(AddEp(s, true), op)
            && Apply(AddEp(s, true), op) ==
                 if t.value.state == StoppingEps then Ok(AddEp(t.value, true)) else Abort(SockC, 775)
  {
    hide EndpointsInv, PipesInv, Without;
    StepKeeps(s, op);
    if op.EpReports? {
      assert forall p | Attached(AddEp(s, true), p) :: Attached(s, p);
    }
  }

  /** An endpoint added to a stopping socket: the shutdown has a fatal continuation,
      in which every call is careful again. */
  lemma LateAddFaults(s: Sock) returns (ops: seq<Op>)
    requires Inv(s) && s.stopping
    ensures Legal(AddEp(s, true), ops, true) && Run(AddEp(s, true), ops).Abort?
    decreases |s.sdeps|, s.connections, |s.events|, 0
  {
    hide EndpointsInv, EventsInv, Legal, Run, Without;
    var stray := AddEp(s, true);
    if s.state != StoppingEps {
      ops := StrayPipe(s);
    } else if s.events != [] {
      DispatchKeeps(s);
      DispatchShrinks(s);
      StraySteps(s, Dispatch);
      ops := GoOn(s, Dispatch);
    } else {
      var ep := s.sdeps[0];
      if p :| Attached(s, p) && s.pipes[p].ep == ep {
        PipesOf(s, p);
        StopPipeKeeps(s, p);
        StraySteps(s, DoStopPipe(p));
        ops := GoOn(s, DoStopPipe(p));
      } else {
        EpLeaves(s, ep);
        StraySteps(s, EpReports(ep));
        var t := Apply(s, EpReports(ep)).value;
        StraySteps(t, Dispatch);
        var rest := GoOn(t, Dispatch);
        Prepend(stray, EpReports(ep), rest);
        ops := [EpReports(ep)] + rest;
      }
    }
  }

  /** The rest of a fatal continuation after a step of the shutdown. */
  lemma GoOn(s: Sock, op: Op) returns (ops: seq<Op>)
    requires Inv(s) && s.state == StoppingEps && Apply(s, op).Ok?
    requires var t := Apply(s, op).value;
             && Inv(t) && t.stopping && t.connections >= 0
    requires var stray := AddEp(s, true);
             && Enabled(stray, op) && Careful(stray, op)
             && Apply(stray, op) ==
                  if Apply(s, op).value.state == StoppingEps then Ok(AddEp(Apply(s, op).value, true))
                  else Abort(SockC, 775)
    ensures Legal(AddEp(s, true), ops, true) && Run(AddEp(s, true), ops).Abort?
    decreases |Apply(s, op).value.sdeps|, Apply(s, op).value.connections, |Apply(s, op).value.events|, 1
  {
    hide Inv, Apply, Enabled, Careful, AddEp;
    var t := Apply(s, op).value;
    if t.state == StoppingEps {
      var rest := LateAddFaults(t);
      Prepend(AddEp(s, true), op, rest);
      ops := [op] + rest;
    } else {
      Prepend(AddEp(s, true), op, []);
      ops := [op] + [];
    }
  }

  /** Once the protocol is stopped, an event of the stray endpoint is fatal. */
  lemma StrayPipe(s: Sock) returns (ops: seq<Op>)
    requires Inv(s) && s.state in {Stopping, Fini}
    ensures Legal(AddEp(s, true), ops, true) && Run(AddEp(s, true), ops).Abort?
  {
    hide EndpointsInv, PipesInv;
    var stray := AddEp(s, true);
    LastWord(s);
    var t := stray.(events := s.events + [PipeEvent(s.eid)]);
    assert Enabled(stray, PipeRaises(s.eid)) by { FirstIsIn(s.events); }
    if s.events == [] {
      assert t.events == [PipeEvent(s.eid)];
      Prepend(t, Dispatch, []);
      ops := [PipeRaises(s.eid)] + ([Dispatch] + []);
      Prepend(stray, PipeRaises(s.eid), [Dispatch] + []);
    } else {
      FirstIsIn(s.events);
      assert s.events == [SockStopped];
      assert t.events == [SockStopped, PipeEvent(s.eid)];
      var u := Apply(t, Dispatch).value;
      assert u.events == [PipeEvent(s.eid)];
      Prepend(u, Dispatch, []);
      Prepend(t, Dispatch, [Dispatch] + []);
      Prepend(stray, PipeRaises(s.eid), [Dispatch] + ([Dispatch] + []));
      ops := [PipeRaises(s.eid)] + ([Dispatch] + ([Dispatch] + []));
    }
  }

  /** The two rules for callers are exactly what is needed. */
  lemma CarefulIsExact(s: Sock, op: Op)
    requires Inv(s) && Enabled(s, op)
    ensures Careful(s, op) <==>
            Apply(s, op).Ok? && forall ops | Legal(Apply(s, op).value, ops, true) :: Run(Apply(s, op).value, ops).Ok?
  {
    hide Inv, Enabled, Legal, Run;
    if Careful(s, op) {
      StepKeeps(s, op);
      forall ops | Legal(Apply(s, op).value, ops, true) ensures Run(Apply(s, op).value, ops).Ok? {
        RunIsSafe(Apply(s, op).value, ops);
      }
    } else if op == DoAddEp(true) {
      var ops := LateAddFaults(s);
      assert Run(Apply(s, op).value, ops).Abort?;
    }
  }

  // ---------- holders ----------

  /** A holder releases what it holds, the last one only once the socket stops. */
  predicate Owed(s: Sock, op: Op)
  {
    op == DoRele ==> s.holds > 1 || (s.holds == 1 && s.stopping)
  }

  ghost predicate Balanced(s: Sock, ops: seq<Op>)
    decreases |ops|
  {
    ops == [] || (Owed(s, ops[0]) && (Apply(s, ops[0]).Ok? ==> Balanced(Apply(s, ops[0]).value, ops[1..])))
  }

  predicate HoldInv(s: Sock)
  {
    && s.holds >= 0
    && s.released == (if s.holds == 0 then 1 else 0)
    && (s.holds == 0 ==> s.stopping)
    && (s.stopping ==> s.state != Active)
  }

  lemma {:induction false} HoldsKeep(s: Sock, ops: seq<Op>)
    requires HoldInv(s) && Balanced(s, ops) && Run(s, ops).Ok?
    ensures HoldInv(Run(s, ops).value)
    decreases |ops|
  {
    if ops != [] {
      HoldsKeep(Apply(s, ops[0]).value, ops[1..]);
    }
  }

  /** The two waits of nn_sock_term. */
  predicate TermPasses(s: Sock)
  {
    s.posted > 0 && s.released > 0
  }

  /** With balanced holders nn_sock_term passes its waits exactly when the protocol
      is destroyed and nobody holds the socket, and then nobody ever will again. */
  lemma TermWaitsForAll(hasStop: bool, ops: seq<Op>, more: seq<Op>)
    requires Legal(Created(hasStop), ops + more, true) && Balanced(Created(hasStop), ops + more)
    ensures Run(Created(hasStop), ops).Ok? && Run(Created(hasStop), ops + more).Ok?
    ensures var t := Run(Created(hasStop), ops).value;
            && (TermPasses(t) <==> t.state == Fini && t.holds == 0)
            && (TermPasses(t) ==> TermPasses(Run(Created(hasStop), ops + more).value))
            && t.posted <= 1 && t.released <= 1
            && (TermPasses(t) ==> t.eps == [] && t.sdeps == [])
  {
    var s := Created(hasStop);
    CreatedIsGood(hasStop);
    SplitRun(s, ops, more);
    RunIsSafe(s, ops);
    var t := Run(s, ops).value;
    HoldsKeep(s, ops);
    RunIsSafe(t, more);
    HoldsKeep(t, more);
    if TermPasses(t) {
      StaysReady(t, more);
    }
  }

  lemma {:induction false} SplitRun(s: Sock, ops: seq<Op>, more: seq<Op>)
    requires Inv(s) && Legal(s, ops + more, true) && Balanced(s, ops + more)
    ensures Legal(s, ops, true) && Balanced(s, ops) && Run(s, ops).Ok?
    ensures Legal(Run(s, ops).value, more, true) && Balanced(Run(s, ops).value, more)
    ensures Run(s, ops + more) == Run(Run(s, ops).value, more)
    decreases |ops|
  {
    hide Inv, Apply, Enabled, Careful, Owed;
    if ops == [] {
      assert ops + more == more;
    } else {
      assert (ops + more)[1..] == ops[1..] + more;
      StepKeeps(s, ops[0]);
      SplitRun(Apply(s, ops[0]).value, ops[1..], more);
    }
  }

  lemma {:induction false} StaysReady(s: Sock, ops: seq<Op>)
    requires HoldInv(s) && TermPasses(s) && Balanced(s, ops) && Run(s, ops).Ok?
    ensures TermPasses(Run(s, ops).value)
    decreases |ops|
  {
    if ops != [] {
      StaysReady(Apply(s, ops[0]).value, ops[1..]);
    }
  }

  lemma {:induction false} NothingReleased(s: Sock, ops: seq<Op>)
    requires forall op | op in ops :: op != DoRele
    ensures Balanced(s, ops)
    decreases |ops|
  {
    if ops != [] {
      assert ops[0] in ops && forall op | op in ops[1..] :: op in ops;
      if Apply(s, ops[0]).Ok? {
        NothingReleased(Apply(s, ops[0]).value, ops[1..]);
      }
    }
  }

  /** What nn_sock_term must not do: pass while the socket is held. */
  predicate PassesHolder(s: Sock)
  {
    TermPasses(s) && s.holds > 0
  }

  /** A creator that lets go before the stop: another holder, the stop and its
      completion follow, and nn_sock_term passes that holder. */
  lemma EarlyReleasePasses(s: Sock) returns (ops: seq<Op>)
    requires Inv(s) && HoldInv(s) && s.holds == 1 && !s.stopping
    ensures var t := Rele(s);
            && Legal(t, ops, true) && Balanced(t, ops)
            && Run(t, ops).Ok? && PassesHolder(Run(t, ops).value)
  {
    hide EndpointsInv, EventsInv, PipesInv, Legal, Run;
    var t := Rele(s);
    HoldsFrame(s, t);
    StepKeeps(t, DoHold);
    var u := Hold(t);
    StopKeeps(u);
    var v := Stop(u).value;
    var rest := StopCompletes(v);
    Prepend(u, DoStop, rest);
    Prepend(t, DoHold, [DoStop] + rest);
    ops := [DoHold] + ([DoStop] + rest);
    NothingReleased(t, ops);
  }

  /** A holder may release, with the others balanced, exactly if no continuation
      lets nn_sock_term pass while the socket is held. */
  lemma OwedIsExact(s: Sock)
    requires Inv(s) && HoldInv(s) && s.holds > 0
    ensures Owed(s, DoRele) <==>
            forall ops | Legal(Rele(s), ops, true) && Balanced(Rele(s), ops) ::
              Run(Rele(s), ops).Ok? && !PassesHolder(Run(Rele(s), ops).value)
  {
    hide Inv, Legal, Run, Balanced;
    var t := Rele(s);
    HoldsFrame(s, t);
    if Owed(s, DoRele) {
      forall ops | Legal(t, ops, true) && Balanced(t, ops) ensures Run(t, ops).Ok? && !PassesHolder(Run(t, ops).value) {
        RunIsSafe(t, ops);
        HoldsKeep(t, ops);
      }
    } else {
      var ops := EarlyReleasePasses(s);
      assert PassesHolder(Run(t, ops).value);
    }
  }
}
