/** Execution contexts: events raised inside a context are processed before its
    mutex is given up, events for others are delivered afterwards by the thread
    that left. */
module Ctxs {
  import opened Outcome
  import opened Seqs

  type Ev = nat

  /** One raise of an event object for another context; `n` numbers the raises from
      one context. */
  datatype Sent = Sent(e: Ev, n: nat)

  /** The queues of a context, and for the record what was ever pushed on them and
      what came out. `owner` holds the thread that has the mutex. */
  datatype Cx = Cx(owner: seq<nat>, events: seq<Ev>, eventsto: seq<Sent>,
                   raised: seq<Ev>, processed: seq<Ev>, sent: seq<Sent>, delivered: seq<Sent>)

  /** The queue a thread took along when it left a context. `taken` says that the
      thread has popped the first event and not entered its context yet. */
  datatype Batch = Batch(from: nat, rest: seq<Sent>, taken: bool)

  /** `stacks` are the batches of each thread, the innermost last; `linked` are the
      events whose link says they are on a queue. */
  datatype World = World(cxs: seq<Cx>, stacks: seq<seq<Batch>>, linked: set<Ev>)

  /** The context each event is for. */
  type Target = Ev -> nat

  datatype Op =
    | Enter(thread: nat, c: nat)
    | Raise(c: nat, e: Ev)
    | RaiseTo(c: nat, e: Ev)
    | Process(c: nat)
    | Leave(c: nat)
    | Take(thread: nat)
    | Arrive(thread: nat)

  // ---------- steps ----------

  predicate Free(w: World, c: nat)
  {
    c < |w.cxs| && w.cxs[c].owner == []
  }

  predicate Locked(w: World, c: nat)
  {
    c < |w.cxs| && |w.cxs[c].owner| == 1 && w.cxs[c].owner[0] < |w.stacks|
  }

  predicate Idle(w: World, thread: nat)
  {
    thread < |w.stacks| && forall c | 0 <= c < |w.cxs| :: w.cxs[c].owner != [thread]
  }

  /** A context is entered by an idle thread with no deliveries to make, or by one
      that has the next event to deliver in hand; it is left only when drained. */
  predicate Enabled(to: Target, w: World, op: Op)
  {
    match op
    case Enter(thread, c) => Free(w, c) && Idle(w, thread) && w.stacks[thread] == []
    case Raise(c, _) => Locked(w, c)
    case RaiseTo(c, _) => Locked(w, c)
    case Process(c) => Locked(w, c) && w.cxs[c].events != []
    case Leave(c) => Locked(w, c) && w.cxs[c].events == []
    case Take(thread) =>
      Idle(w, thread) && Delivering(w.stacks[thread], |w.cxs|) && !Top(w.stacks[thread]).taken
    case Arrive(thread) =>
      && Idle(w, thread) && Delivering(w.stacks[thread], |w.cxs|) && Top(w.stacks[thread]).taken
      && Free(w, to(Top(w.stacks[thread]).rest[0].e))
  }

  function Top(stack: seq<Batch>): Batch
    requires stack != []
  {
    stack[|stack| - 1]
  }

  /** A stack with something to deliver, from one of the contexts. */
  predicate Delivering(stack: seq<Batch>, contexts: nat)
  {
    stack != [] && Top(stack).rest != [] && Top(stack).from < contexts
  }

  function Push(w: World, c: nat, x: Cx, e: Ev): Result<World>
    requires c < |w.cxs|
  {
    if e in w.linked then Abort(QueueC, 23)
    else Ok(w.(cxs := w.cxs[c := x], linked := w.linked + {e}))
  }

  /** The batch of a thread without its first event; a finished one is dropped. */
  function Advance(stack: seq<Batch>): seq<Batch>
    requires stack != [] && Top(stack).rest != []
  {
    var n := |stack| - 1;
    var rest := Top(stack).rest[1..];
    if rest == [] then stack[..n] else stack[n := Batch(Top(stack).from, rest, false)]
  }

  function Apply(to: Target, w: World, op: Op): Result<World>
    requires Enabled(to, w, op)
  {
    match op
    case Enter(thread, c) => Ok(w.(cxs := w.cxs[c := w.cxs[c].(owner := [thread])]))
    case Raise(c, e) =>
      var x := w.cxs[c];
      Push(w, c, x.(events := x.events + [e], raised := x.raised + [e]), e)
    case RaiseTo(c, e) =>
      var x := w.cxs[c];
      var one := Sent(e, |x.sent|);
      Push(w, c, x.(eventsto := x.eventsto + [one], sent := x.sent + [one]), e)
    case Process(c) =>
      var x := w.cxs[c];
      Ok(w.(cxs := w.cxs[c := x.(events := x.events[1..], processed := x.processed + [x.events[0]])],
            linked := w.linked - {x.events[0]}))
    case Leave(c) =>
      var x := w.cxs[c];
      var thread := x.owner[0];
      var left := w.(cxs := w.cxs[c := x.(owner := [], eventsto := [])]);
      if x.eventsto == [] then Ok(left)
      else Ok(left.(stacks := w.stacks[thread := w.stacks[thread] + [Batch(c, x.eventsto, false)]]))
    case Take(thread) =>
      var stack := w.stacks[thread];
      Ok(w.(stacks := w.stacks[thread := stack[|stack| - 1 := Top(stack).(taken := true)]],
            linked := w.linked - {Top(stack).rest[0].e}))
    case Arrive(thread) =>
      var top := Top(w.stacks[thread]);
      var one := top.rest[0];
      var d := to(one.e);
      var done := w.cxs[top.from := w.cxs[top.from].(delivered := w.cxs[top.from].delivered + [one])];
      Ok(w.(cxs := done[d := done[d].(owner := [thread])],
            stacks := w.stacks[thread := Advance(w.stacks[thread])]))
  }

  // ---------- the invariant ----------

  datatype QueueId = Events(c: nat) | EventsTo(c: nat) | InFlight(thread: nat, depth: nat)

  function Objects(s: seq<Sent>): (r: seq<Ev>)
    ensures |r| == |s|
  {
    seq(|s|, i requires 0 <= i < |s| => s[i].e)
  }

  function OnQueue(b: Batch): seq<Ev>
  {
    if b.taken && b.rest != [] then Objects(b.rest[1..]) else Objects(b.rest)
  }

  /** The items of any queue there is. */
  function Items(w: World, q: QueueId): seq<Ev>
  {
    match q
    case Events(c) => if c < |w.cxs| then w.cxs[c].events else []
    case EventsTo(c) => if c < |w.cxs| then Objects(w.cxs[c].eventsto) else []
    case InFlight(t, k) => if t < |w.stacks| && k < |w.stacks[t]| then OnQueue(w.stacks[t][k]) else []
  }

  /** No item is on two queues, or twice on one; links tell the truth. */
  ghost predicate OneQueue(w: World)
  {
    && (forall q :: NoDup(Items(w, q)))
    && (forall q, r, e | q != r && e in Items(w, q) :: e !in Items(w, r))
    && (forall q, e | e in Items(w, q) :: e in w.linked)
    && (forall e | e in w.linked :: exists q :: e in Items(w, q))
  }

  /** A context nobody is in has nothing left to do; what was processed is what was
      raised, in order. */
  ghost predicate Drained(w: World)
  {
    forall c | 0 <= c < |w.cxs| ::
      && w.cxs[c].raised == w.cxs[c].processed + w.cxs[c].events
      && (w.cxs[c].owner == [] ==> w.cxs[c].events == [] && w.cxs[c].eventsto == [])
      && (w.cxs[c].owner != [] ==> Locked(w, c))
  }

  ghost predicate Batches(w: World)
  {
    forall t, k | 0 <= t < |w.stacks| && 0 <= k < |w.stacks[t]| ::
      w.stacks[t][k].rest != [] && w.stacks[t][k].from < |w.cxs|
      && (w.stacks[t][k].taken ==> k == |w.stacks[t]| - 1 && Idle(w, t))
  }

  /** The raises of every context are numbered. */
  ghost predicate Numbered(w: World)
  {
    forall c, i | 0 <= c < |w.cxs| && 0 <= i < |w.cxs[c].sent| :: w.cxs[c].sent[i].n == i
  }

  /** A thread is in one context at a time. */
  ghost predicate OneContext(w: World)
  {
    forall c, d | 0 <= c < d < |w.cxs| && w.cxs[c].owner != [] :: w.cxs[c].owner != w.cxs[d].owner
  }

  ghost predicate Inv(w: World)
  {
    OneQueue(w) && Drained(w) && Batches(w) && OneContext(w) && Numbered(w)
  }

  const FRESH := Cx([], [], [], [], [], [], [])

  function Start(contexts: nat, threads: nat): World
  {
    World(seq(contexts, _ => FRESH), seq(threads, _ => []), {})
  }

  lemma StartIsGood(contexts: nat, threads: nat)
    ensures Inv(Start(contexts, threads))
  {
    var w := Start(contexts, threads);
    forall q: QueueId ensures Items(w, q) == [] {
    }
    hide Items;
  }
}
