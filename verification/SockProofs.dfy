/** Socket shutdown: safe for careful callers, final, complete, and exactly what
    goes wrong for careless ones. */
module SockProofs {
  import opened Outcome
  import opened Seqs
  import opened Socks

  // ---------- what a change of one part leaves alone ----------

  lemma PlacesFrame(s: Sock, t: Sock)
    requires EndpointsInv(s) && t.eid == s.eid && t.freed == s.freed
    requires multiset(t.eps) + multiset(t.sdeps) == multiset(s.eps) + multiset(s.sdeps)
    ensures EndpointsInv(t)
    ensures forall e :: e in t.eps || e in t.sdeps <==> e in s.eps || e in s.sdeps
  {
    forall e: nat ensures Places(t, e) == Places(s, e) {
      assert (multiset(t.eps) + multiset(t.sdeps))[e] == (multiset(s.eps) + multiset(s.sdeps))[e];
    }
    forall e: nat ensures e in t.eps || e in t.sdeps <==> e in s.eps || e in s.sdeps {
      assert e in multiset(t.eps) + multiset(t.sdeps) <==> e in multiset(s.eps) + multiset(s.sdeps);
    }
  }

  lemma EventsFrame(s: Sock, t: Sock)
    requires EventsInv(s) && t.events == s.events && (SockStopped in s.events ==> t.state == s.state)
    requires forall e :: e in s.eps || e in s.sdeps ==> e in t.eps || e in t.sdeps
    requires forall e | e in s.sdeps :: e in t.sdeps
    ensures EventsInv(t)
  {
  }

  lemma PipesFrame(s: Sock, t: Sock)
    requires PipesInv(s) && t.pipes == s.pipes && t.connections == s.connections
    requires forall e | Live(s, e) :: Live(t, e)
    ensures PipesInv(t)
  {
  }

  // ---------- every operation ----------

  lemma AddEpKeeps(s: Sock)
    requires Inv(s) && !s.stopping
    ensures Inv(AddEp(s, true))
  {
    var t := AddEp(s, true);
    assert EndpointsInv(t) by {
      forall e: nat ensures Places(t, e) == (if 1 <= e < t.eid then 1 else 0) {
        assert Places(s, e) == (if 1 <= e < s.eid then 1 else 0);
      }
    }
    EventsFrame(s, t);
    PipesFrame(s, t);
  }

  lemma EmEpKeeps(s: Sock, ep: nat)
    requires Inv(s)
    ensures Inv(EmEp(s, ep))
  {
    hide EndpointsInv, EventsInv, PipesInv, Without;
    var t := EmEp(s, ep);
    if ep in s.eps {
      WithoutMultiset(s.eps, ep);
      PlacesFrame(s, t);
      EventsFrame(s, t);
      PipesFrame(s, t);
    }
  }

  lemma FirstIsIn(q: seq<Event>)
    ensures q == [] || q[0] in q
  {
  }

  lemma NoEvents(s: Sock)
    requires EventsInv(s) && s.eps == [] && s.sdeps == [] && SockStopped !in s.events
    ensures s.events == []
  {
    FirstIsIn(s.events);
  }

  lemma StopKeeps(s: Sock)
    requires Inv(s)
    ensures Stop(s).Ok? && Inv(Stop(s).value)
  {
    hide EndpointsInv, PipesInv, EventsInv;
    if !s.stopping {
      var t := Stop(s).value;
      assert t.sdeps == s.sdeps + s.eps;
      PlacesFrame(s, t);
      assert SockStopped !in s.events by { LastWord(s); }
      EventsFrame(s, t);
      PipesFrame(s, t);
      if t.sdeps == [] {
        NoEvents(t);
      }
    }
  }

  lemma PushedInOrder(s: Sock, e: Event)
    requires EventsInv(s)
    requires e.PipeEvent? || e.EpStopped? ==> Live(s, e.ep)
    requires e.EpStopped? ==> e.ep in s.sdeps
    requires e == SockStopped ==> s.state == Stopping && s.events == []
    requires SockStopped !in s.events
    ensures EventsInv(s.(events := s.events + [e]))
  {
  }

  /** The last word of the protocol is the last event there is. */
  lemma LastWord(s: Sock)
    requires Inv(s)
    ensures s.state != Stopping ==> SockStopped !in s.events
    ensures s.state == Stopping ==> forall e :: !Live(s, e)
    ensures s.state == Stopping && SockStopped !in s.events ==> s.events == []
  {
    if s.state == Stopping && SockStopped !in s.events {
      NoEvents(s);
    }
  }

  lemma PushKeeps(s: Sock, e: Event)
    requires Inv(s)
    requires match e
             case PipeEvent(ep) => Live(s, ep)
             case EpStopped(ep) => Enabled(s, EpReports(ep))
             case SockStopped => Enabled(s, ProtocolReports)
    ensures Inv(s.(events := s.events + [e]))
  {
    hide EndpointsInv, EventsInv;
    var t := s.(events := s.events + [e]);
    LastWord(s);
    PushedInOrder(s, e);
    PlacesFrame(s, t);
    assert forall x :: x in t.events <==> x in s.events || x == e;
    assert AttachedPipes(t) == AttachedPipes(s);
  }

  lemma SetPipe(s: Sock, t: Sock, pipe: nat, v: Pipe)
    requires t.pipes == s.pipes[pipe := v]
    ensures AttachedPipes(t) == if v.state == PipeActive then AttachedPipes(s) + {pipe} else AttachedPipes(s) - {pipe}
  {
  }

  lemma StartPipeKeeps(s: Sock, pipe: nat, ep: nat, taken: bool)
    requires Inv(s) && Live(s, ep) && Careful(s, DoStartPipe(pipe, ep, taken))
    ensures StartPipe(s, pipe, ep, taken).Ok? && Inv(StartPipe(s, pipe, ep, taken).value)
  {
    hide EndpointsInv, EventsInv, AttachedPipes;
    var t := StartPipe(s, pipe, ep, taken).value;
    var u := if taken then s.(events := s.events + [PipeEvent(ep)]) else s;
    if taken {
      PushKeeps(s, PipeEvent(ep));
    }
    PlacesFrame(u, t);
    EventsFrame(u, t);
    SetPipe(s, t, pipe, t.pipes[pipe]);
    assert pipe !in AttachedPipes(s) by { InAttached(s, pipe); }
    assert AttachedPipes(s) - {pipe} == AttachedPipes(s);
  }

  lemma InAttached(s: Sock, pipe: nat)
    ensures pipe in AttachedPipes(s) <==> Attached(s, pipe)
  {
  }

  /** The count of connections never falls below zero. */
  lemma StopPipeKeeps(s: Sock, pipe: nat)
    requires Inv(s)
    ensures StopPipe(s, pipe).Ok? && Inv(StopPipe(s, pipe).value)
  {
    hide EndpointsInv, EventsInv, AttachedPipes;
    if pipe in s.pipes {
      InAttached(s, pipe);
      if Attached(s, pipe) {
        assert |{pipe}| == 1 && {pipe} <= AttachedPipes(s);
        assert |AttachedPipes(s)| == |AttachedPipes(s) - {pipe}| + 1;
      } else {
        assert AttachedPipes(s) - {pipe} == AttachedPipes(s);
      }
      var t := StopPipe(s, pipe).value;
      PlacesFrame(s, t);
      EventsFrame(s, t);
      SetPipe(s, t, pipe, t.pipes[pipe]);
    }
  }

  // ---------- taking an event ----------

  /** Without its first event the queue is still in order; behind the last word of
      an endpoint there is nothing of it. */
  lemma TakeKeeps(s: Sock)
    requires Inv(s) && s.events != []
    ensures EventsInv(s.(events := s.events[1..]))
    ensures s.events[0].EpStopped? ==> forall x | x in s.events[1..] :: x == SockStopped || x.ep != s.events[0].ep
    ensures s.events[0] != SockStopped ==> SockStopped !in s.events[1..]
  {
  }

  lemma FreeEpKeeps(s: Sock, ep: nat)
    requires Inv(s) && s.events != [] && s.events[0] == EpStopped(ep)
    ensures var r := FreeEp(s.(events := s.events[1..]), ep);
            && r.Ok? && EndpointsInv(r.value) && EventsInv(r.value) && PipesInv(r.value)
            && r.value == s.(events := s.events[1..], sdeps := r.value.sdeps, freed := s.freed + [ep])
  {
    hide EndpointsInv, PhaseInv, Without;
    assert s.events[0] in s.events;
    TakeKeeps(s);
    var u := s.(events := s.events[1..]);
    var t := FreeEp(u, ep).value;
    WithoutMultiset(s.sdeps, ep);
    assert EndpointsInv(t) && ep !in t.eps && ep !in t.sdeps by { FreedOnce(s, t, ep); }
    assert forall e :: e in t.sdeps <==> e in s.sdeps && e != ep by { SdepsWithout(s, t, ep); }
    EventsFrameLess(u, t, ep);
    assert AttachedPipes(t) == AttachedPipes(s);
    forall p | Attached(t, p) ensures Live(t, t.pipes[p].ep) {
      assert Live(s, s.pipes[p].ep);
    }
  }

  lemma FreedOnce(s: Sock, t: Sock, ep: nat)
    requires EndpointsInv(s) && ep in s.sdeps && t.eps == s.eps && t.eid == s.eid && t.freed == s.freed + [ep]
    requires multiset(t.sdeps) == multiset(s.sdeps) - multiset{ep}
    ensures EndpointsInv(t) && ep !in t.eps && ep !in t.sdeps
  {
    forall e: nat ensures Places(t, e) == Places(s, e) {
      assert multiset(t.sdeps)[e] == (multiset(s.sdeps) - multiset{ep})[e];
    }
    assert Places(s, ep) <= 1;
    assert multiset(s.sdeps)[ep] >= 1;
  }

  lemma SdepsWithout(s: Sock, t: Sock, ep: nat)
    requires ep in s.sdeps && multiset(t.sdeps) == multiset(s.sdeps) - multiset{ep} && ep !in t.sdeps
    ensures forall e :: e in t.sdeps <==> e in s.sdeps && e != ep
  {
    forall e: nat | e != ep ensures e in t.sdeps <==> e in s.sdeps {
      assert e in multiset(t.sdeps) <==> e in multiset(s.sdeps);
    }
  }

  lemma EventsFrameLess(u: Sock, t: Sock, ep: nat)
    requires EventsInv(u) && t.events == u.events && t.eps == u.eps && t.state == u.state
    requires forall e :: e in t.sdeps <==> e in u.sdeps && e != ep
    requires forall x | x in u.events :: x == SockStopped || x.ep != ep
    ensures EventsInv(t)
  {
  }

  /** What another event than an endpoint's last word can be. */
  lemma OtherEvent(s: Sock)
    requires Inv(s) && s.events != [] && !s.events[0].EpStopped?
    ensures var u := s.(events := s.events[1..]);
            && PipesInv(u)
            && (s.events[0].PipeEvent? ==> s.state in {Active, StoppingEps})
            && (s.events[0].SockStopped? ==> s.state == Stopping && u.events == [])
  {
  }

  lemma DispatchKeeps(s: Sock)
    requires Inv(s) && s.events != []
    ensures Apply(s, Dispatch).Ok? && Inv(Apply(s, Dispatch).value)
  {
    hide EndpointsInv, EventsInv, PipesInv, FreeEp;
    var e := s.events[0];
    var u := s.(events := s.events[1..]);
    TakeKeeps(s);
    LastWord(s);
    if e.EpStopped? {
      FreeEpKeeps(s, e.ep);
      var t := FreeEp(u, e.ep).value;
      assert s.state in {Active, StoppingEps} by { FirstAlive(s); }
      if s.stopping && t.sdeps == [] {
        NoEvents(t);
        var w := EpsGone(t).value;
        PlacesFrame(t, w);
        EventsFrame(t, w);
        PipesFrame(t, w);
      }
    } else {
      OtherEvent(s);
      var t := Apply(s, Dispatch).value;
      PlacesFrame(s, t);
      EventsFrame(u, t);
      PipesFrame(u, t);
    }
  }

  lemma FirstAlive(s: Sock)
    requires Inv(s) && s.events != [] && s.events[0].EpStopped?
    ensures s.state in {Active, StoppingEps}
  {
  }

  lemma StepKeeps(s: Sock, op: Op)
    requires Inv(s) && Enabled(s, op) && Careful(s, op)
    ensures Apply(s, op).Ok? && Inv(Apply(s, op).value)
  {
    match op {
      case DoAddEp(up) => if up { AddEpKeeps(s); }
      case DoEmEp(ep) => EmEpKeeps(s, ep);
      case DoHold => HoldsFrame(s, Hold(s));
      case DoRele => HoldsFrame(s, Rele(s));
      case DoStop => StopKeeps(s);
      case DoStartPipe(pipe, ep, taken) => StartPipeKeeps(s, pipe, ep, taken);
      case DoStopPipe(pipe) => StopPipeKeeps(s, pipe);
      case PipeRaises(ep) => PushKeeps(s, PipeEvent(ep));
      case EpReports(ep) => PushKeeps(s, EpStopped(ep));
      case ProtocolReports => PushKeeps(s, SockStopped);
      case Dispatch => DispatchKeeps(s);
    }
  }

  lemma HoldsFrame(s: Sock, t: Sock)
    requires Inv(s) && t == s.(holds := t.holds, released := t.released)
    ensures Inv(t)
  {
    PlacesFrame(s, t);
    EventsFrame(s, t);
    PipesFrame(s, t);
  }
}
