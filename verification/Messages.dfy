/** Three-part messages and the memory bound of an inbound queue. */
module Messages {

  newtype byte = x: int | 0 <= x < 256

  datatype Msg = Msg(sphdr: seq<byte>, hdrs: seq<byte>, body: seq<byte>)

  const EMPTY := Msg([], [], [])

  /** What an in-process sender puts into its mailbox: the protocol header
      followed by the body, all in the body; the transport headers are dropped. */
  function Flat(m: Msg): Msg
  {
    Msg([], [], m.sphdr + m.body)
  }

  /** Messages as they cross to the other end. */
  ghost function Carried(ms: seq<Msg>): (r: seq<Msg>)
    ensures |r| == |ms|
  {
    if ms == [] then [] else Carried(ms[..|ms| - 1]) + [Flat(ms[|ms| - 1])]
  }

  lemma CarriedPush(ms: seq<Msg>, m: Msg)
    ensures Carried(ms + [m]) == Carried(ms) + [Flat(m)]
  {
    assert (ms + [m])[..|ms|] == ms;
  }

  /** f is what m looks like at the other end: no headers of its own, the bytes of the
      protocol header first, those of the body behind them. */
  predicate Arrived(m: Msg, f: Msg)
  {
    && f.sphdr == [] && f.hdrs == [] && |f.body| == |m.sphdr| + |m.body|
    && f.body[..|m.sphdr|] == m.sphdr && f.body[|m.sphdr|..] == m.body
  }

  lemma {:induction false} CarriedIs(ms: seq<Msg>, i: nat)
    requires i < |ms|
    ensures Arrived(ms[i], Carried(ms)[i])
  {
    if i < |ms| - 1 {
      CarriedIs(ms[..|ms| - 1], i);
    }
  }

  /** The bytes a queue charges for a message. */
  function Size(m: Msg): nat
  {
    |m.sphdr| + |m.body|
  }

  /** All the bytes in a queue, one message behind the other. */
  function Joined(q: seq<Msg>): seq<byte>
  {
    if q == [] then [] else q[0].sphdr + q[0].body + Joined(q[1..])
  }

  lemma {:induction false} JoinedPush(q: seq<Msg>, m: Msg)
    ensures Joined(q + [m]) == Joined(q) + m.sphdr + m.body
  {
    if q == [] {
      assert q + [m] == [m];
      assert Joined([m]) == m.sphdr + m.body + Joined([m][1..]);
    } else {
      assert (q + [m])[1..] == q[1..] + [m];
      JoinedPush(q[1..], m);
    }
  }

  /** A queue refuses a message only when it already holds one. */
  predicate Full(q: seq<Msg>, maxmem: nat, m: Msg)
  {
    |q| > 0 && |Joined(q)| + Size(m) >= maxmem
  }
}
