/** The socket in place: its endpoints are in two intrusive lists, and the methods
    carry out the transitions of Socks. */
module SockObjects {
  import opened Outcome
  import opened Seqs
  import L = Lists
  import S = Socks

  /** The link of an endpoint, which is known by its identifier. */
  type Ep = L.ListItem<nat>

  lemma WithoutFirst<T>(s: seq<T>)
    ensures s != [] ==> Without(s, s[0]) == s[1..] && s == [s[0]] + s[1..]
  {
  }

  class Sock {
    const hasStop: bool
    const eps: L.List<nat>
    const sdeps: L.List<nat>
    var state: S.State
    var stopping: bool
    var eid: nat
    var pipes: map<nat, S.Pipe>
    var connections: int
    var holds: int
    var events: seq<S.Event>
    var termsem: nat
    var relesem: nat
    /** Every endpoint that was added, the ones freed, and the calls of the protocol. */
    ghost var Eps: map<nat, Ep>
    ghost var freed: seq<nat>
    ghost var asked: nat
    ghost var destroyed: nat

    ghost function Foot(): set<object>
      reads this
    {
      {this, eps, sdeps} + (set e | e in Eps :: Eps[e] as object)
    }

    ghost predicate Inside()
      reads this, eps, sdeps
    {
      && {this, eps, sdeps} <= Foot() && (forall e | e in Eps :: Eps[e] in Foot())
      && (forall x | x in eps.Items :: x in Foot()) && (forall x | x in sdeps.Items :: x in Foot())
    }

    /** Each list holds endpoints that were added, under identifiers already given. */
    ghost predicate Known()
      reads this, eps, sdeps
    {
      && eps != sdeps
      && (forall e | e in Eps :: Eps[e].owner == e && e < eid)
      && (forall x | x in eps.Items :: x.owner in Eps && Eps[x.owner] == x && x !in sdeps.Items)
      && (forall x | x in sdeps.Items :: x.owner in Eps && Eps[x.owner] == x)
    }

    lemma KnownIsInside()
      requires Known()
      ensures Inside()
    {
    }

    ghost predicate Valid()
      reads this, Foot()
    {
      Known() && Inside() && eps.Valid() && sdeps.Valid()
    }

    ghost function Abs(): S.Sock
      reads this, eps, sdeps
    {
      S.Sock(state, stopping, hasStop, L.Owners(eps.Items), L.Owners(sdeps.Items), freed, eid,
             pipes, connections, holds, events, asked, destroyed, termsem, relesem)
    }

    constructor (hasStop: bool)
      ensures Valid() && Abs() == S.Created(hasStop) && Eps == map[] && fresh(eps) && fresh(sdeps)
    {
      this.hasStop := hasStop;
      eps := new L.List<nat>();
      sdeps := new L.List<nat>();
      state, stopping, eid, holds := S.Active, false, 1, 1;
      freed, events, pipes, Eps := [], [], map[], map[];
      connections, asked, destroyed, termsem, relesem := 0, 0, 0, 0, 0;
      new;
      KnownIsInside();
      L.OwnersNone(eps.Items);
    }

    /** What is not about the lists does not touch them. */
    twostate lemma Kept()
      requires old(Valid()) && unchanged(eps) && unchanged(sdeps) && Eps == old(Eps) && eid == old(eid)
      requires forall x | x in eps.Items :: unchanged(x)
      requires forall x | x in sdeps.Items :: unchanged(x)
      ensures Valid() && Foot() == old(Foot())
    {
      hide L.List.Valid;
      eps.Untouched();
      sdeps.Untouched();
    }

    /** `rc` is what initialising the endpoint returned. */
    method AddEp(rc: int) returns (r: int)
      requires Valid()
      modifies Foot()
      ensures Valid()
      ensures if rc < 0 then Eps == old(Eps) else r in Eps && fresh(Eps[r]) && Eps == old(Eps)[r := Eps[r]]
      ensures Abs() == S.AddEp(old(Abs()), rc >= 0)
      ensures rc >= 0 ==> Abs() == old(var s := Abs(); s.(eps := s.eps + [s.eid], eid := s.eid + 1))
      ensures rc < 0 ==> Abs() == old(Abs())
      ensures r == if rc < 0 then rc else old(eid)
    {
      hide L.Owners, L.List.Valid, Foot;
      if rc < 0 {
        return rc;
      }
      var ep := new L.ListItem(eid);
      r := eid;
      eid := eid + 1;
      Eps := Eps[r := ep];
      L.OwnersPush(eps.Items, ep);
      assert forall x | x in sdeps.Items :: x !in eps.Items;
      eps.Append(ep);
      sdeps.Untouched();
      KnownIsInside();
    }

    /** An endpoint is listed exactly if its identifier is. */
    lemma IdIn(s: seq<Ep>, x: Ep)
      requires forall y | y in s :: y.owner in Eps && Eps[y.owner] == y
      requires x.owner in Eps && Eps[x.owner] == x
      ensures x.owner in L.Owners(s) <==> x in s
    {
      hide L.Owners;
      L.OwnerIn(s, x);
    }

    lemma IdsWithout(s: seq<Ep>, x: Ep)
      requires forall y | y in s :: y.owner in Eps && Eps[y.owner] == y
      requires x in s
      ensures L.Owners(Without(s, x)) == Without(L.Owners(s), x.owner)
      ensures forall y | y in Without(s, x) :: y in s
    {
      hide L.Owners, Without;
      L.OwnersWithout(s, x);
    }

    lemma IdsOnce()
      requires Valid()
      ensures NoDup(L.Owners(eps.Items)) && NoDup(L.Owners(sdeps.Items))
    {
    }

    /** From eps to the end of sdeps. */
    method Retire(ep: Ep)
      requires Valid() && ep in eps.Items
      modifies Foot()
      ensures Valid() && Foot() == old(Foot()) && Eps == old(Eps)
      ensures eps.Items == Without(old(eps.Items), ep) && sdeps.Items == old(sdeps.Items) + [ep]
      ensures Abs() == old(Abs()).(eps := Without(old(Abs()).eps, ep.owner), sdeps := old(Abs()).sdeps + [ep.owner])
    {
      hide L.Owners, L.List.Valid, Without;
      IdsWithout(eps.Items, ep);
      L.OwnersPush(sdeps.Items, ep);
      assert forall x | x in sdeps.Items :: x !in eps.Items && allocated(x);
      var _ := eps.Remove(ep);
      sdeps.Untouched();
      label Removed:
      sdeps.Append(ep);
      eps.Untouched@Removed();
      KnownIsInside();
    }

    /** False stands for -EINVAL. */
    method EmEp(ep: nat) returns (ok: bool)
      requires Valid()
      modifies Foot()
      ensures Valid() && Eps == old(Eps) && Abs() == S.EmEp(old(Abs()), ep)
      ensures ok <==> ep in old(Abs()).eps
      ensures ok ==> ep !in Abs().eps && TakenOut(old(Abs()).eps, ep, Abs().eps)
      ensures ok ==> Abs() == old(var s := Abs(); s.(sdeps := s.sdeps + [ep])).(eps := Abs().eps)
      ensures !ok ==> Abs() == old(Abs())
    {
      hide TakenOut;
      hide L.List.Valid, Without, Foot;
      var it := eps.Begin();
      ghost var k := 0;
      while it != null && it.owner != ep
        invariant k <= |eps.Items| && L.ToLink(it) == eps.Neighbour(k)
        invariant forall j | 0 <= j < k :: eps.Items[j].owner != ep
        modifies {}
        decreases |eps.Items| - k
      {
        it := eps.Next(it, k);
        k := k + 1;
      }
      if it == null {
        assert k == |eps.Items|;
        return false;
      }
      IdIn(eps.Items, it);
      IdsOnce();
      WithoutTakesOut(L.Owners(eps.Items), ep);
      Retire(it);
      return true;
    }

    /** False stands for -EBADF. */
    method Hold() returns (ok: bool)
      requires Valid()
      modifies this`holds
      ensures Valid() && Abs() == S.Hold(old(Abs())) && (ok <==> old(state) == S.Active)
      ensures holds == old(holds) + if ok then 1 else 0
    {
      hide L.List.Valid, L.Owners, Foot, Valid;
      if state == S.Active {
        holds := holds + 1;
        Kept();
        return true;
      }
      return false;
    }

    method Rele()
      requires Valid()
      modifies this`holds, this`relesem
      ensures Valid() && Abs() == S.Rele(old(Abs()))
      ensures holds == old(holds) - 1 && relesem == old(relesem) + if old(holds) == 1 then 1 else 0
    {
      hide L.List.Valid, L.Owners, Foot, Valid;
      holds := holds - 1;
      if holds == 0 {
        relesem := relesem + 1;
      }
      Kept();
    }

    method StartPipe(pipe: nat, ep: nat, taken: bool) returns (ok: bool)
      requires Valid()
      modifies this`pipes, this`connections, this`events
      ensures ok <==> S.StartPipe(old(Abs()), pipe, ep, taken).Ok?
      ensures ok ==> Valid() && S.StartPipe(old(Abs()), pipe, ep, taken) == Ok(Abs())
      ensures ok <==> pipe !in old(pipes) || old(pipes)[pipe].state == S.PipeIdle
      ensures ok ==> pipes == old(pipes)[pipe := S.Pipe(ep, if taken then S.PipeActive else S.PipeFailed)]
      ensures ok ==> connections == old(connections) + (if taken then 1 else 0)
      ensures ok ==> events == old(events) + (if taken then [S.PipeEvent(ep)] else [])
    {
      hide L.List.Valid, L.Owners, Foot, Valid;
      if pipe in pipes && pipes[pipe].state != S.PipeIdle {
        return false;
      }
      pipes := pipes[pipe := S.Pipe(ep, S.PipeActive)];
      if !taken {
        pipes := pipes[pipe := S.Pipe(ep, S.PipeFailed)];
        assert pipes == old(pipes)[pipe := S.Pipe(ep, S.PipeFailed)];
        Kept();
        return true;
      }
      connections := connections + 1;
      events := events + [S.PipeEvent(ep)];
      Kept();
      return true;
    }

    method StopPipe(pipe: nat) returns (ok: bool)
      requires Valid()
      modifies this`pipes, this`connections, this`events
      ensures ok <==> S.StopPipe(old(Abs()), pipe).Ok?
      ensures ok ==> Valid() && S.StopPipe(old(Abs()), pipe) == Ok(Abs())
      ensures var active := pipe in old(pipes) && old(pipes)[pipe].state == S.PipeActive;
              && (ok <==> active ==> old(connections) >= 1)
              && (ok ==> connections == old(connections) - (if active then 1 else 0) && events == old(events))
      ensures ok ==> pipes.Keys == old(pipes).Keys
      ensures ok ==> forall p | p in pipes ::
                pipes[p] == if p == pipe then S.Pipe(old(pipes)[p].ep, S.PipeIdle) else old(pipes)[p]
    {
      hide L.List.Valid, L.Owners, Foot, Valid;
      if pipe !in pipes {
        return true;
      }
      if pipes[pipe].state == S.PipeActive {
        if connections < 1 {
          return false;
        }
        connections := connections - 1;
      }
      pipes := pipes[pipe := pipes[pipe].(state := S.PipeIdle)];
      Kept();
      return true;
    }

    /** The part of the shutdown from the label finish2 on. */
    method EpsGone() returns (ok: bool)
      requires Valid()
      modifies this`state, this`asked, this`destroyed, this`termsem
      ensures ok <==> S.EpsGone(old(Abs())).Ok?
      ensures Valid() && (ok ==> S.EpsGone(old(Abs())) == Ok(Abs()))
      ensures ok <==> old(Abs()).sdeps != [] || old(Abs()).eps == []
      ensures ok && old(Abs()).sdeps != [] ==> Abs() == old(Abs())
      ensures ok && old(Abs()).sdeps == [] && hasStop ==>
                Abs() == old(Abs()).(state := S.Stopping, asked := old(asked) + 1)
      ensures ok && old(Abs()).sdeps == [] && !hasStop ==>
                Abs() == old(Abs()).(state := S.Fini, destroyed := old(destroyed) + 1, posted := old(termsem) + 1)
    {
      hide L.List.Valid, Foot, Inside, L.Owners;
      L.OwnersNone(eps.Items);
      L.OwnersNone(sdeps.Items);
      var gone := sdeps.Empty();
      if !gone {
        return true;
      }
      var none := eps.Empty();
      if !none {
        return false;
      }
      state := S.Stopping;
      if hasStop {
        asked := asked + 1;
        Kept();
        return true;
      }
      destroyed := destroyed + 1;
      state := S.Fini;
      termsem := termsem + 1;
      Kept();
      return true;
    }

    method Stop() returns (ok: bool)
      requires Valid()
      modifies Foot()
      ensures ok <==> S.Stop(old(Abs())).Ok?
      ensures ok ==> Valid() && S.Stop(old(Abs())) == Ok(Abs())
      ensures ok <==> old(stopping) || old(state) == S.Active
      ensures ok && old(stopping) ==> Abs() == old(Abs())
      ensures ok && !old(stopping) ==>
                && stopping && Abs().eps == [] && Abs().sdeps == old(Abs()).sdeps + old(Abs()).eps
                && state == (if Abs().sdeps != [] then S.StoppingEps else if hasStop then S.Stopping else S.Fini)
                && asked == old(asked) + (if state == S.Stopping then 1 else 0)
                && destroyed - old(destroyed) == termsem - old(termsem) == (if state == S.Fini then 1 else 0)
    {
      hide L.List.Valid, Without, Inside, L.Owners, S.EpsGone;
      if stopping {
        return true;
      }
      if state != S.Active {
        return false;
      }
      ghost var s := Abs();
      stopping := true;
      Kept();
      MoveAll();
      label Moved:
      state := S.StoppingEps;
      Kept@Moved();
      ok := EpsGone();
    }

    /** Every endpoint moves over, from the first on. */
    method MoveAll()
      requires Valid()
      modifies Foot()
      ensures Valid() && Eps == old(Eps)
      ensures Abs() == old(Abs()).(eps := [], sdeps := old(Abs()).sdeps + old(Abs()).eps)
    {
      hide L.List.Valid, Without, Foot, L.Owners, L.List.Neighbour;
      var it := Start();
      while it != null
        invariant Valid() && Eps == old(Eps) && Foot() == old(Foot())
        invariant it == null <==> eps.Items == []
        invariant it != null ==> it == eps.Items[0]
        invariant Abs() == old(Abs()).(eps := Abs().eps, sdeps := Abs().sdeps)
        invariant Abs().sdeps + Abs().eps == old(Abs()).sdeps + old(Abs()).eps
        decreases |eps.Items|
      {
        it := MoveFirst(it);
      }
      L.OwnersNone(eps.Items);
    }

    method Start() returns (it: L.ListItem?<nat>)
      requires Valid()
      ensures it == null <==> eps.Items == []
      ensures it != null ==> it == eps.Items[0]
    {
      it := eps.Begin();
    }

    method MoveFirst(ep: Ep) returns (it: L.ListItem?<nat>)
      requires Valid() && eps.Items != [] && ep == eps.Items[0]
      modifies Foot()
      ensures Valid() && Eps == old(Eps) && Foot() == old(Foot()) && |eps.Items| == |old(eps.Items)| - 1
      ensures it == null <==> eps.Items == []
      ensures it != null ==> it == eps.Items[0]
      ensures Abs() == old(Abs()).(eps := Abs().eps, sdeps := Abs().sdeps)
      ensures Abs().sdeps + Abs().eps == old(Abs()).sdeps + old(Abs()).eps
    {
      hide L.List.Valid, Without, Foot, L.Owners;
      ghost var rest := eps.Items;
      WithoutFirst(rest);
      WithoutFirst(L.Owners(rest));
      L.OwnersFirst(rest);
      it := eps.Next(ep, 0);
      Retire(ep);
    }

    /** The endpoint said its last word and is freed; false stands for the check that it
        is in a list. */
    method FreeEp(ep: Ep) returns (ok: bool)
      requires Valid() && ep.owner in Eps && Eps[ep.owner] == ep
      requires ep.IsInList() ==> ep in sdeps.Items
      modifies Foot()
      ensures ok <==> S.FreeEp(old(Abs()), ep.owner).Ok?
      ensures ok ==> Valid() && Eps == old(Eps) && S.FreeEp(old(Abs()), ep.owner) == Ok(Abs())
      ensures ok <==> ep.owner in old(Abs()).sdeps
      ensures ok ==> ep.owner !in Abs().sdeps && TakenOut(old(Abs()).sdeps, ep.owner, Abs().sdeps)
      ensures ok ==> Abs() == old(var s := Abs(); s.(freed := s.freed + [ep.owner])).(sdeps := Abs().sdeps)
    {
      hide L.Owners, Without, L.List.Valid, Foot;
      IdIn(sdeps.Items, ep);
      if !ep.IsInList() {
        if ep in sdeps.Items {
          sdeps.ListedAre(ep);
        }
        return false;
      }
      IdsWithout(sdeps.Items, ep);
      IdsOnce();
      WithoutTakesOut(L.Owners(sdeps.Items), ep.owner);
      assert forall x | x in eps.Items :: x !in sdeps.Items;
      var _ := sdeps.Remove(ep);
      eps.Untouched();
      freed := freed + [ep.owner];
      KnownIsInside();
      return true;
    }

    /** An event for the state machine; the last word of an endpoint comes with it. */
    method Feed(e: S.Event, ep: L.ListItem?<nat>) returns (ok: bool)
      requires Valid()
      requires e.EpStopped? ==> ep != null && ep.owner == e.ep && e.ep in Eps && Eps[e.ep] == ep
      requires e.EpStopped? && ep.IsInList() ==> ep in sdeps.Items
      modifies Foot()
      ensures ok <==> S.Feed(old(Abs()), e).Ok?
      ensures ok ==> Valid() && S.Feed(old(Abs()), e) == Ok(Abs())
      ensures ok <==> match old(state)
                case Active => !old(stopping) && e != S.SockStopped && (e.EpStopped? ==> e.ep in old(Abs()).sdeps)
                case StoppingEps =>
                  old(stopping) && (e.EpStopped? ==> e.ep in old(Abs()).sdeps
                                                     && (old(Abs()).sdeps == [e.ep] ==> old(Abs()).eps == []))
                case Stopping => old(stopping) && e == S.SockStopped
                case Fini => false
    {
      hide L.List.Valid, Foot, L.Owners, Without, S.EpsGone, S.FreeEp;
      KnownIsInside();
      if !stopping {
        if state != S.Active {
          return false;
        }
        match e {
          case EpStopped(_) => ok := FreeEp(ep);
          case PipeEvent(_) => return true;
          case SockStopped => return false;
        }
        return;
      }
      match state {
        case StoppingEps =>
          if !e.EpStopped? {
            return true;
          }
          ok := FreeEp(ep);
          if ok {
            ok := EpsGone();
          }
        case Stopping =>
          if e != S.SockStopped {
            return false;
          }
          destroyed := destroyed + 1;
          state := S.Fini;
          termsem := termsem + 1;
          Kept();
          return true;
        case _ => return false;
      }
    }
  }
}
