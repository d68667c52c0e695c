/** The rendezvous of the in-process transport: bound and connected endpoints by
    address, and the callbacks made when two of them meet. */
module Ins {
  import opened Seqs
  import L = Lists

  /** A registration of an endpoint; `ticket` numbers the registrations. */
  datatype Reg = Reg(ticket: nat, addr: string, ep: nat)

  /** A callback fn(self, peer). */
  datatype Call = Call(self: Reg, peer: Reg)

  datatype Registry = Registry(bound: seq<Reg>, connected: seq<Reg>, next: nat, calls: seq<Call>)

  type Compatible = (nat, nat) -> bool

  // ---------- the operations ----------

  predicate Meets(ispeer: Compatible, r: Reg, x: Reg)
  {
    r.addr == x.addr && ispeer(r.ep, x.ep)
  }

  predicate InUse(bound: seq<Reg>, addr: string)
  {
    exists i | 0 <= i < |bound| :: bound[i].addr == addr
  }

  /** Every connected endpoint that a new bound one meets, in order. */
  function BindCalls(ispeer: Compatible, r: Reg, cs: seq<Reg>): seq<Call>
  {
    if cs == [] then []
    else (if Meets(ispeer, r, cs[0]) then [Call(r, cs[0])] else []) + BindCalls(ispeer, r, cs[1..])
  }

  /** The first bound endpoint with the address, if it is compatible. */
  function ConnectCalls(ispeer: Compatible, r: Reg, bs: seq<Reg>): seq<Call>
  {
    if bs == [] then []
    else if r.addr == bs[0].addr then (if ispeer(r.ep, bs[0].ep) then [Call(r, bs[0])] else [])
    else ConnectCalls(ispeer, r, bs[1..])
  }

  /** An address in use is refused: -EADDRINUSE. */
  function BindIn(ispeer: Compatible, g: Registry, addr: string, ep: nat): Registry
  {
    if InUse(g.bound, addr) then g
    else
      var r := Reg(g.next, addr, ep);
      Registry(g.bound + [r], g.connected, g.next + 1, g.calls + BindCalls(ispeer, r, g.connected))
  }

  function ConnectIn(ispeer: Compatible, g: Registry, addr: string, ep: nat): Registry
  {
    var r := Reg(g.next, addr, ep);
    Registry(g.bound, g.connected + [r], g.next + 1, g.calls + ConnectCalls(ispeer, r, g.bound))
  }

  function UnbindIn(g: Registry, r: Reg): Registry
  {
    g.(bound := Without(g.bound, r))
  }

  function DisconnectIn(g: Registry, r: Reg): Registry
  {
    g.(connected := Without(g.connected, r))
  }

  // ---------- the invariant ----------

  predicate Between(k: Call, x: Reg, y: Reg)
  {
    (k.self == x && k.peer == y) || (k.self == y && k.peer == x)
  }

  /** How often the callback was made for the two registrations. */
  function Times(calls: seq<Call>, x: Reg, y: Reg): nat
  {
    if calls == [] then 0 else (if Between(calls[0], x, y) then 1 else 0) + Times(calls[1..], x, y)
  }

  /** Whether two registrations must meet: the later one asks. */
  predicate Match(ispeer: Compatible, x: Reg, y: Reg)
  {
    x.addr == y.addr && if x.ticket > y.ticket then ispeer(x.ep, y.ep) else ispeer(y.ep, x.ep)
  }

  ghost predicate Distinct(s: seq<Reg>)
  {
    forall i, j | 0 <= i < j < |s| :: s[i].ticket != s[j].ticket
  }

  /** Addresses are pairwise distinct. */
  ghost predicate Addresses(s: seq<Reg>)
  {
    forall i, j | 0 <= i < j < |s| :: s[i].addr != s[j].addr
  }

  ghost predicate Inv(ispeer: Compatible, g: Registry)
  {
    && Distinct(g.bound) && Distinct(g.connected)
    && (forall x | x in g.bound || x in g.connected :: x.ticket < g.next)
    && (forall b, c | b in g.bound && c in g.connected :: b.ticket != c.ticket)
    && Addresses(g.bound)
    && (forall k | k in g.calls ::
          k.self.ticket < g.next && k.peer.ticket < k.self.ticket && Match(ispeer, k.self, k.peer))
    && (forall x, y :: Times(g.calls, x, y) <= 1)
    && (forall b, c | b in g.bound && c in g.connected ::
          Times(g.calls, b, c) == if Match(ispeer, b, c) then 1 else 0)
  }

  lemma {:induction false} TimesConcat(s: seq<Call>, t: seq<Call>, x: Reg, y: Reg)
    ensures Times(s + t, x, y) == Times(s, x, y) + Times(t, x, y)
  {
    if s == [] {
      assert s + t == t;
    } else {
      assert (s + t)[1..] == s[1..] + t;
      TimesConcat(s[1..], t, x, y);
    }
  }

  /** Registrations that no call names have no call between them. */
  lemma {:induction false} TimesOfNew(calls: seq<Call>, x: Reg, y: Reg)
    requires forall k | k in calls :: k.self != x && k.peer != x
    ensures Times(calls, x, y) == 0 && Times(calls, y, x) == 0
  {
    if calls != [] {
      assert calls[0] in calls;
      TimesOfNew(calls[1..], x, y);
    }
  }

  /** The callbacks of a bind: one for each registration it meets, none else. */
  lemma {:induction false} BindCallsExact(ispeer: Compatible, r: Reg, cs: seq<Reg>, x: Reg, y: Reg)
    requires Distinct(cs) && r !in cs
    ensures Times(BindCalls(ispeer, r, cs), x, y) ==
            if (x == r && y in cs && Meets(ispeer, r, y)) || (y == r && x in cs && Meets(ispeer, r, x)) then 1 else 0
    ensures forall k | k in BindCalls(ispeer, r, cs) :: k.self == r && k.peer in cs && Meets(ispeer, r, k.peer)
  {
    if cs != [] {
      BindCallsExact(ispeer, r, cs[1..], x, y);
      assert cs == [cs[0]] + cs[1..];
      assert cs[0] !in cs[1..];
      var head := if Meets(ispeer, r, cs[0]) then [Call(r, cs[0])] else [];
      TimesConcat(head, BindCalls(ispeer, r, cs[1..]), x, y);
      if head != [] {
        assert Times(head, x, y) == (if Between(head[0], x, y) then 1 else 0) + Times(head[1..], x, y);
      }
    }
  }

  /** The callbacks of a connect: with distinct bound addresses, the first match is
      the only one. */
  lemma {:induction false} ConnectCallsExact(ispeer: Compatible, r: Reg, bs: seq<Reg>, x: Reg, y: Reg)
    requires Distinct(bs) && r !in bs
    requires Addresses(bs)
    ensures Times(ConnectCalls(ispeer, r, bs), x, y) ==
            if (x == r && y in bs && Meets(ispeer, r, y)) || (y == r && x in bs && Meets(ispeer, r, x)) then 1 else 0
    ensures forall k | k in ConnectCalls(ispeer, r, bs) :: k.self == r && k.peer in bs && Meets(ispeer, r, k.peer)
  {
    if bs != [] {
      assert bs == [bs[0]] + bs[1..];
      if r.addr == bs[0].addr {
        assert forall b | b in bs[1..] :: b.addr != r.addr;
        var t := ConnectCalls(ispeer, r, bs);
        if t != [] {
          assert Times(t, x, y) == (if Between(t[0], x, y) then 1 else 0) + Times(t[1..], x, y);
        }
      } else {
        ConnectCallsExact(ispeer, r, bs[1..], x, y);
      }
    }
  }

  /** What adding a registration with its callbacks does to the counts. */
  lemma NewRegistration(ispeer: Compatible, g: Registry, r: Reg, others: seq<Reg>, new_: seq<Call>, x: Reg, y: Reg)
    requires Inv(ispeer, g) && r.ticket == g.next && forall o | o in others :: o.ticket < g.next
    requires Times(new_, x, y) ==
             if (x == r && y in others && Meets(ispeer, r, y)) || (y == r && x in others && Meets(ispeer, r, x))
             then 1 else 0
    ensures Times(g.calls + new_, x, y) <= 1
    ensures x != r && y != r ==> Times(g.calls + new_, x, y) == Times(g.calls, x, y)
    ensures x == r && y in others ==> Times(g.calls + new_, x, y) == if Match(ispeer, x, y) then 1 else 0
    ensures y == r && x in others ==> Times(g.calls + new_, x, y) == if Match(ispeer, x, y) then 1 else 0
  {
    TimesConcat(g.calls, new_, x, y);
    if x == r || y == r {
      TimesOfNew(g.calls, r, if x == r then y else x);
    }
  }

  lemma BindKeeps(ispeer: Compatible, g: Registry, addr: string, ep: nat)
    requires Inv(ispeer, g)
    ensures Inv(ispeer, BindIn(ispeer, g, addr, ep))
  {
    hide BindCalls, Times;
    if !InUse(g.bound, addr) {
      var r := Reg(g.next, addr, ep);
      var new_ := BindCalls(ispeer, r, g.connected);
      forall x, y
        ensures Times(g.calls + new_, x, y) <= 1
        ensures x in g.bound + [r] && y in g.connected ==>
                  Times(g.calls + new_, x, y) == if Match(ispeer, x, y) then 1 else 0
      {
        BindCallsExact(ispeer, r, g.connected, x, y);
        NewRegistration(ispeer, g, r, g.connected, new_, x, y);
      }
      BindCallsExact(ispeer, r, g.connected, r, r);
    }
  }

  lemma ConnectKeeps(ispeer: Compatible, g: Registry, addr: string, ep: nat)
    requires Inv(ispeer, g)
    ensures Inv(ispeer, ConnectIn(ispeer, g, addr, ep))
  {
    hide ConnectCalls, Times;
    var r := Reg(g.next, addr, ep);
    var new_ := ConnectCalls(ispeer, r, g.bound);
    forall x, y
      ensures Times(g.calls + new_, x, y) <= 1
      ensures x in g.bound && y in g.connected + [r] ==>
                Times(g.calls + new_, x, y) == if Match(ispeer, x, y) then 1 else 0
    {
      ConnectCallsExact(ispeer, r, g.bound, x, y);
      NewRegistration(ispeer, g, r, g.bound, new_, x, y);
    }
    ConnectCallsExact(ispeer, r, g.bound, r, r);
  }

  lemma EraseKeeps(s: seq<Reg>, t: seq<Reg>, k: nat)
    requires k < |s| && t == s[..k] + s[k + 1..]
    ensures Distinct(s) ==> Distinct(t)
    ensures Addresses(s) ==> Addresses(t)
  {
  }

  /** Erasing a registration leaves the others, in order. */
  lemma WithoutKeeps(s: seq<Reg>, x: Reg)
    requires Distinct(s)
    ensures var t := Without(s, x);
            && (forall y :: y in t <==> y in s && y != x)
            && Distinct(t)
            && (Addresses(s) ==> Addresses(t))
  {
    hide Addresses, Without;
    if x in s {
      assert NoDup(s);
      hide Distinct;
      var k := Find(s, x);
      WithoutAt(s, k);
      WithoutExact(s, x);
      EraseKeeps(s, Without(s, x), k);
    }
  }

  lemma UnbindKeeps(ispeer: Compatible, g: Registry, r: Reg)
    requires Inv(ispeer, g)
    ensures Inv(ispeer, UnbindIn(g, r))
  {
    WithoutKeeps(g.bound, r);
  }

  lemma DisconnectKeeps(ispeer: Compatible, g: Registry, r: Reg)
    requires Inv(ispeer, g)
    ensures Inv(ispeer, DisconnectIn(g, r))
  {
    WithoutKeeps(g.connected, r);
  }

  // ---------- runs ----------

  datatype Op =
    | DoBind(addr: string, ep: nat)
    | DoConnect(addr: string, ep: nat)
    | DoUnbind(r: Reg)
    | DoDisconnect(r: Reg)

  function Apply(ispeer: Compatible, g: Registry, op: Op): Registry
  {
    match op
    case DoBind(addr, ep) => BindIn(ispeer, g, addr, ep)
    case DoConnect(addr, ep) => ConnectIn(ispeer, g, addr, ep)
    case DoUnbind(r) => UnbindIn(g, r)
    case DoDisconnect(r) => DisconnectIn(g, r)
  }

  function Run(ispeer: Compatible, g: Registry, ops: seq<Op>): Registry
    decreases |ops|
  {
    if ops == [] then g else Run(ispeer, Apply(ispeer, g, ops[0]), ops[1..])
  }

  const EMPTY := Registry([], [], 0, [])

  lemma {:induction false} RunKeeps(ispeer: Compatible, g: Registry, ops: seq<Op>)
    requires Inv(ispeer, g)
    ensures Inv(ispeer, Run(ispeer, g, ops))
    decreases |ops|
  {
    hide Inv;
    if ops != [] {
      match ops[0] {
        case DoBind(addr, ep) => BindKeeps(ispeer, g, addr, ep);
        case DoConnect(addr, ep) => ConnectKeeps(ispeer, g, addr, ep);
        case DoUnbind(r) => UnbindKeeps(ispeer, g, r);
        case DoDisconnect(r) => DisconnectKeeps(ispeer, g, r);
      }
      RunKeeps(ispeer, Apply(ispeer, g, ops[0]), ops[1..]);
    }
  }

  /** After any run: bound addresses are distinct; two registrations that are both
      still there have met exactly once if they have the same address and are
      compatible, and never otherwise; no pair at all has met twice. */
  lemma MetExactlyOnce(ispeer: Compatible, ops: seq<Op>)
    requires forall x, y :: ispeer(x, y) == ispeer(y, x)
    ensures var g := Run(ispeer, EMPTY, ops);
            && Addresses(g.bound)
            && (forall b, c | b in g.bound && c in g.connected ::
                  Times(g.calls, b, c) == if b.addr == c.addr && ispeer(b.ep, c.ep) then 1 else 0)
            && (forall x, y :: Times(g.calls, x, y) <= 1)
            && (forall k | k in g.calls :: k.self.addr == k.peer.addr && ispeer(k.self.ep, k.peer.ep))
  {
    RunKeeps(ispeer, EMPTY, ops);
  }

  // ---------- the registry in place ----------

  datatype Endpoint = Endpoint(addr: string, ep: nat)

  type Item = L.ListItem<Endpoint>

  /** The tickets of the registrations that items stand for. */
  type Tickets = map<Item, nat>

  ghost function RegOf(tickets: Tickets, x: Item): Reg
    requires x in tickets
  {
    Reg(tickets[x], x.owner.addr, x.owner.ep)
  }

  ghost function Regs(tickets: Tickets, s: seq<Item>): (r: seq<Reg>)
    requires forall x | x in s :: x in tickets
    ensures |r| == |s| && forall i | 0 <= i < |s| :: r[i] == RegOf(tickets, s[i])
  {
    if s == [] then [] else [RegOf(tickets, s[0])] + Regs(tickets, s[1..])
  }

  /** A new registration of a free item. */
  lemma RegsPush(tickets: Tickets, s: seq<Item>, x: Item, n: nat)
    requires x !in s && forall y | y in s :: y in tickets
    ensures Regs(tickets[x := n], s) == Regs(tickets, s)
    ensures Regs(tickets[x := n], s + [x]) == Regs(tickets, s) + [Reg(n, x.owner.addr, x.owner.ep)]
  {
  }

  /** Every listed item has a ticket of its own. */
  ghost predicate Numbered(tickets: Tickets, s: seq<Item>, next: nat)
  {
    && (forall x | x in s :: x in tickets && tickets[x] < next)
    && (forall x, y | x in s && y in s && tickets[x] == tickets[y] :: x == y)
  }

  lemma NumberedPush(tickets: Tickets, s: seq<Item>, x: Item, next: nat)
    requires Numbered(tickets, s, next) && x !in s
    ensures Numbered(tickets[x := next], s + [x], next + 1) && Numbered(tickets[x := next], s, next + 1)
  {
  }

  lemma NumberedWithout(tickets: Tickets, s: seq<Item>, x: Item, next: nat)
    requires Numbered(tickets, s, next) && NoDup(s) && x in s
    ensures Numbered(tickets, Without(s, x), next)
  {
    WithoutExact(s, x);
  }

  /** Taking an item out takes its registration out. */
  lemma {:induction false} RegsWithout(tickets: Tickets, s: seq<Item>, x: Item, next: nat)
    requires Numbered(tickets, s, next) && x in s
    ensures forall y | y in Without(s, x) :: y in s
    ensures Regs(tickets, Without(s, x)) == Without(Regs(tickets, s), RegOf(tickets, x))
  {
    if s[0] != x {
      assert s[0] in s && forall y | y in s[1..] :: y in s;
      RegsWithout(tickets, s[1..], x, next);
      assert RegOf(tickets, s[0]) != RegOf(tickets, x);
      assert ([s[0]] + Without(s[1..], x))[1..] == Without(s[1..], x);
    }
  }

  lemma InUseIs(tickets: Tickets, s: seq<Item>, addr: string)
    requires forall x | x in s :: x in tickets
    ensures InUse(Regs(tickets, s), addr) <==> exists i :: 0 <= i < |s| && s[i].owner.addr == addr
  {
    if InUse(Regs(tickets, s), addr) {
      var i :| 0 <= i < |s| && Regs(tickets, s)[i].addr == addr;
      assert s[i].owner.addr == addr;
    }
    if i :| 0 <= i < |s| && s[i].owner.addr == addr {
      assert Regs(tickets, s)[i].addr == addr;
    }
  }

  lemma RegsFrom(tickets: Tickets, s: seq<Item>, k: nat)
    requires k < |s| && forall x | x in s :: x in tickets
    ensures Regs(tickets, s)[k..] == [RegOf(tickets, s[k])] + Regs(tickets, s)[k + 1..]
  {
  }

  lemma BindCallsAt(ispeer: Compatible, r: Reg, cs: seq<Reg>, k: nat)
    requires k < |cs|
    ensures BindCalls(ispeer, r, cs[k..]) ==
            (if Meets(ispeer, r, cs[k]) then [Call(r, cs[k])] else []) + BindCalls(ispeer, r, cs[k + 1..])
  {
  }

  lemma BindCallsNone(ispeer: Compatible, r: Reg)
    ensures BindCalls(ispeer, r, []) == []
  {
  }

  /** The two lists of the transport.  An item that has left them may come back, and is
      then another registration. */
  class Registrar {
    const ispeer: Compatible
    const bound: L.List<Endpoint>
    const connected: L.List<Endpoint>
    ghost var tickets: Tickets
    ghost var next: nat
    ghost var calls: seq<Call>

    ghost predicate Valid()
      reads this, bound, connected, bound.Items, connected.Items
    {
      && bound != connected && bound.Valid() && connected.Valid()
      && (forall x | x in bound.Items :: x !in connected.Items)
      && Numbered(tickets, bound.Items, next) && Numbered(tickets, connected.Items, next)
    }

    ghost function Abs(): Registry
      requires Valid()
      reads this, bound, connected, bound.Items, connected.Items
    {
      Registry(Regs(tickets, bound.Items), Regs(tickets, connected.Items), next, calls)
    }

    /** The registration that a listed item stands for. */
    ghost function Registration(item: Item): Reg
      requires Valid() && (item in bound.Items || item in connected.Items)
      reads this, bound, connected, bound.Items, connected.Items
    {
      RegOf(tickets, item)
    }

    constructor (ispeer: Compatible)
      ensures Valid() && Abs() == EMPTY && this.ispeer == ispeer && fresh(bound) && fresh(connected)
    {
      this.ispeer := ispeer;
      bound := new L.List<Endpoint>();
      connected := new L.List<Endpoint>();
      tickets, next, calls := map[], 0, [];
    }

    /** The scan for an address in use; false for -EADDRINUSE. */
    method AddressFree(addr: string) returns (ok: bool)
      requires Valid()
      ensures ok <==> !InUse(Abs().bound, addr)
      ensures ok <==> forall x | x in bound.Items :: x.owner.addr != addr
    {
      hide L.List.Valid, Regs, Numbered;
      assert forall x | x in bound.Items :: x in tickets by { Listed(); }
      InUseIs(tickets, bound.Items, addr);
      var it := bound.Begin();
      ghost var k := 0;
      while it != null
        invariant k <= |bound.Items| && L.ToLink(it) == bound.Neighbour(k)
        invariant forall j | 0 <= j < k :: bound.Items[j].owner.addr != addr
        decreases |bound.Items| - k
      {
        if it.owner.addr == addr {
          return false;
        }
        it := bound.Next(it, k);
        k := k + 1;
      }
      return true;
    }

    lemma Listed()
      requires Valid()
      ensures forall x | x in bound.Items || x in connected.Items :: x in tickets
    {
    }

    /** The callbacks of a new bound endpoint. */
    method MeetConnected(item: Item)
      requires Valid() && item in bound.Items
      modifies this`calls
      ensures calls == old(calls) + BindCalls(ispeer, Registration(item), Abs().connected)
    {
      hide L.List.Valid, Regs, Numbered, BindCalls;
      Listed();
      ghost var r, cs := RegOf(tickets, item), Regs(tickets, connected.Items);
      assert cs[0..] == cs;
      var it := connected.Begin();
      ghost var k := 0;
      while it != null
        invariant k <= |connected.Items| && L.ToLink(it) == connected.Neighbour(k)
        invariant calls + BindCalls(ispeer, r, cs[k..]) == old(calls) + BindCalls(ispeer, r, cs)
        decreases |connected.Items| - k
      {
        BindCallsAt(ispeer, r, cs, k);
        if it.owner.addr == item.owner.addr && ispeer(item.owner.ep, it.owner.ep) {
          calls := calls + [Call(r, RegOf(tickets, it))];
        }
        it := connected.Next(it, k);
        k := k + 1;
      }
      assert cs[k..] == [];
      BindCallsNone(ispeer, r);
    }

    method Bind(item: Item) returns (ok: bool)
      requires Valid() && !item.IsInList()
      modifies this`tickets, this`next, this`calls, bound, bound.Items, item
      ensures Valid() && Abs() == BindIn(ispeer, old(Abs()), item.owner.addr, item.owner.ep)
      ensures ok <==> forall x | x in old(bound.Items) :: x.owner.addr != item.owner.addr
      ensures ok ==> bound.Items == old(bound.Items) + [item]
      ensures !ok ==> bound.Items == old(bound.Items)
      ensures ok ==> item in bound.Items && Registration(item).ticket == old(next)
    {
      hide RegOf;
      hide L.List.Valid, Regs, BindCalls, InUse, Numbered;
      ok := AddressFree(item.owner.addr);
      if ok {
        NotListed(item);
        Listed();
        RegsPush(tickets, bound.Items, item, next);
        RegsPush(tickets, connected.Items, item, next);
        NumberedPush(tickets, bound.Items, item, next);
        NumberedPush(tickets, connected.Items, item, next);
        bound.Append(item);
        connected.Untouched();
        tickets, next := tickets[item := next], next + 1;
        label Bound:
        MeetConnected(item);
        bound.Untouched@Bound();
        connected.Untouched@Bound();
      }
    }

    lemma NotListed(item: Item)
      requires Valid() && !item.IsInList()
      ensures item !in bound.Items && item !in connected.Items
      ensures forall x | x in connected.Items :: x !in bound.Items
    {
    }

    /** The first bound endpoint with the address ends the search. */
    method MeetBound(item: Item)
      requires Valid() && item in connected.Items
      modifies this`calls
      ensures calls == old(calls) + ConnectCalls(ispeer, Registration(item), Abs().bound)
    {
      hide L.List.Valid, Regs, Numbered;
      Listed();
      ghost var r, bs := RegOf(tickets, item), Regs(tickets, bound.Items);
      var it := bound.Begin();
      ghost var k := 0;
      while it != null
        invariant k <= |bound.Items| && L.ToLink(it) == bound.Neighbour(k)
        invariant calls == old(calls) && ConnectCalls(ispeer, r, bs[k..]) == ConnectCalls(ispeer, r, bs)
        decreases |bound.Items| - k
      {
        RegsFrom(tickets, bound.Items, k);
        if it.owner.addr == item.owner.addr {
          if ispeer(item.owner.ep, it.owner.ep) {
            calls := calls + [Call(r, RegOf(tickets, it))];
          }
          return;
        }
        it := bound.Next(it, k);
        k := k + 1;
      }
    }

    method Connect(item: Item)
      requires Valid() && !item.IsInList()
      modifies this`tickets, this`next, this`calls, connected, connected.Items, item
      ensures Valid() && Abs() == ConnectIn(ispeer, old(Abs()), item.owner.addr, item.owner.ep)
      ensures connected.Items == old(connected.Items) + [item] && Registration(item).ticket == old(next)
    {
      hide L.List.Valid, Regs, ConnectCalls, Numbered;
      NotListed(item);
      Listed();
      RegsPush(tickets, bound.Items, item, next);
      RegsPush(tickets, connected.Items, item, next);
      NumberedPush(tickets, bound.Items, item, next);
      NumberedPush(tickets, connected.Items, item, next);
      connected.Append(item);
      bound.Untouched();
      tickets, next := tickets[item := next], next + 1;
      label Connected:
      MeetBound(item);
      bound.Untouched@Connected();
      connected.Untouched@Connected();
    }

    method Disconnect(item: Item)
      requires Valid() && item in connected.Items
      modifies connected, connected.Items
      ensures Valid() && !item.IsInList() && Abs() == DisconnectIn(old(Abs()), old(Registration(item)))
      ensures TakenOut(old(connected.Items), item, connected.Items) && item !in connected.Items
    {
      Listed();
      ListedOnce();
      hide L.List.Valid, Regs, Without, Numbered, NoDup, RegOf, TakenOut;
      ghost var s := connected.Items;
      RegsWithout(tickets, s, item, next);
      NumberedWithout(tickets, s, item, next);
      var _ := connected.Remove(item);
      bound.Untouched();
    }

    lemma ListedOnce()
      requires Valid()
      ensures NoDup(bound.Items) && NoDup(connected.Items)
    {
    }

    method Unbind(item: Item)
      requires Valid() && item in bound.Items
      modifies bound, bound.Items
      ensures Valid() && !item.IsInList() && Abs() == UnbindIn(old(Abs()), old(Registration(item)))
      ensures TakenOut(old(bound.Items), item, bound.Items) && item !in bound.Items
    {
      Listed();
      ListedOnce();
      hide L.List.Valid, Regs, Without, Numbered, NoDup, RegOf, TakenOut;
      ghost var s := bound.Items;
      RegsWithout(tickets, s, item, next);
      NumberedWithout(tickets, s, item, next);
      var _ := bound.Remove(item);
      connected.Untouched();
    }
  }
}
