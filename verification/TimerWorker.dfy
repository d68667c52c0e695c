/** Timers and the worker thread that runs their tasks and expires them, as a
    system of steps.  A timer's start and stop travel through the worker's task
    queue; expiry reaches it from the timer set.  A step that reads the clock carries
    the reading. */
module TimerWorker {
  import opened Outcome
  import opened CInts

  datatype FsmState = FsmIdle | FsmActive | FsmStopping
  datatype State = Idle | Active | Stopping

  type Id = nat

  datatype Task = StartTask(t: Id) | StopTask(t: Id)

  /** What a timer raises to its owner. */
  datatype Note = TimeoutNote | StoppedNote

  /** `notes` are the timer's own event objects on the queue of the owner's context. */
  datatype Timer = Timer(fsm: FsmState, state: State, timeout: int, notes: seq<Note>)

  /** The queue of tasks shared under the lock, the batch the thread took from it, the
      wake-up signal, the deadlines in the timer set, and what the thread holds in hand: a task or an
      expired timer that is off its queue while the owner's context is not entered yet. */
  datatype Worker = Worker(shared: seq<Task>, local: seq<Task>, efd: bool, armed: map<Id, int>, hand: Hand)

  datatype Hand = Nothing | Expiring(t: Id) | Running(task: Task)

  datatype System = System(timers: map<Id, Timer>, w: Worker)

  /** One timer and the worker. */
  datatype Pair = Pair(x: Timer, w: Worker)

  datatype Cause = StartAction | StopAction | StartTaskRun | StopTaskRun | Expired

  /** Queue a task and wake the thread. */
  function Execute(w: Worker, task: Task): (r: Result<Worker>)
  {
    if task in w.shared || task in w.local then Abort(QueueC, 23)
    else Ok(w.(shared := w.shared + [task], efd := true))
  }

  function Raise(x: Timer, n: Note): (r: Result<Timer>)
  {
    if n in x.notes then Abort(QueueC, 23) else Ok(x.(notes := x.notes + [n]))
  }

  function Handler(p: Pair, t: Id, c: Cause, now: int): (r: Result<Pair>)
  {
    match p.x.state
    case Idle =>
      if c == StartAction then
        var w :- Execute(p.w, StartTask(t));
        Ok(Pair(p.x.(state := Active), w))
      else if c == StopAction then Abort(TimerC, 111)
      else Abort(TimerC, 114)
    case Active =>
      if c == StartTaskRun then
        if p.x.timeout < 0 then Abort(TimerC, 123)
        else if t in p.w.armed then Abort(ListC, 45)
        else Ok(Pair(p.x.(timeout := -1), p.w.(armed := p.w.armed[t := (now + p.x.timeout) % U64])))
      else if c == Expired then
        if p.x.timeout != -1 then Abort(TimerC, 131)
        else
          var x :- Raise(p.x, TimeoutNote);
          Ok(p.(x := x))
      else Abort(TimerC, 138)
    case Stopping => Abort(TimerC, 144)
  }

  function Shutdown(p: Pair, t: Id, c: Cause): (r: Result<Pair>)
  {
    if c == StopAction then
      var w :- Execute(p.w, StopTask(t));
      Ok(Pair(p.x.(state := Stopping), w))
    else if p.x.state == Stopping then
      if c != StopTaskRun then Ok(p)
      else
        var x :- Raise(p.x.(state := Idle, fsm := FsmIdle), StoppedNote);
        Ok(Pair(x, p.w.(armed := p.w.armed - {t})))
    else Abort(TimerC, 86)
  }

  function Feed(p: Pair, t: Id, c: Cause, now: int): (r: Result<Pair>)
  {
    if p.x.fsm != FsmStopping then Handler(p, t, c, now) else Shutdown(p, t, c)
  }

  // ---------- the owner's calls ----------

  const FRESH := Timer(FsmIdle, Idle, -1, [])

  function Start(p: Pair, t: Id, timeout: int): (r: Result<Pair>)
  {
    if timeout < 0 then Abort(TimerC, 51)
    else if p.x.fsm != FsmIdle then Abort(FsmC, 54)
    else
      var q :- Handler(p.(x := p.x.(timeout := timeout)), t, StartAction, 0);
      Ok(q.(x := q.x.(fsm := FsmActive)))
  }

  /** A stop request is ignored unless the state machine is running. */
  function Stop(p: Pair, t: Id): (r: Result<Pair>)
  {
    if p.x.fsm != FsmActive then Ok(p)
    else Shutdown(p.(x := p.x.(fsm := FsmStopping)), t, StopAction)
  }

  /** The fatal checks made when a timer is dropped. */
  function Term(p: Pair, t: Id): (r: Result<Pair>)
  {
    if p.x.state != Idle then Abort(TimerC, 37)
    else if t in p.w.armed then Abort(ListC, 98)
    else if StopTask(t) in p.w.shared + p.w.local || StartTask(t) in p.w.shared + p.w.local then Abort(QueueC, 89)
    else Ok(p)
  }

  // ---------- steps ----------

  datatype Step =
    | DoInit(t: Id)
    | DoStart(t: Id, timeout: int)
    | DoStop(t: Id)
    | DoTerm(t: Id)
    | DoOwner(t: Id)       // the owner processes the timer's event
    | DoTake               // the thread takes the queued tasks
    | DoPop                // the thread pops the next task it took
    | DoRun(now: int)      // ... and feeds it to its timer
    | DoExpire(t: Id, now: int)  // the thread pops an expired handle from the timer set
    | DoTell               // ... and tells its timer

  /** What a timer raised to its owner is processed before its context is left, and
      nothing else gets in before. */
  predicate Quiet(s: System, t: Id)
  {
    t in s.timers && s.timers[t].notes == []
  }

  /** The timer set hands out an earliest deadline, once it is reached. */
  predicate FirstDue(armed: map<Id, int>, t: Id, now: int)
  {
    t in armed && armed[t] <= now && forall u | u in armed :: armed[t] <= armed[u]
  }

  /** When a step can happen.  An owner starts or drops a timer only if the timer
      is idle. */
  predicate Enabled(s: System, step: Step)
  {
    match step
    case DoInit(t) => t !in s.timers
    case DoStart(t, timeout) => Quiet(s, t) && timeout >= 0 && s.timers[t].fsm == FsmIdle
    case DoStop(t) => Quiet(s, t)
    case DoTerm(t) => Quiet(s, t) && s.timers[t].fsm == FsmIdle
    case DoOwner(t) => t in s.timers && s.timers[t].notes != []
    case DoTake => s.w.efd && s.w.local == [] && s.w.hand == Nothing
    case DoPop => s.w.local != [] && s.w.hand == Nothing
    case DoRun(_) => s.w.hand.Running? && Quiet(s, s.w.hand.task.t)
    case DoExpire(t, now) => FirstDue(s.w.armed, t, now) && s.w.local == [] && s.w.hand == Nothing
    case DoTell => s.w.hand.Expiring? && Quiet(s, s.w.hand.t)
  }

  function View(s: System, t: Id): Pair
    requires t in s.timers
  {
    Pair(s.timers[t], s.w)
  }

  function Back(s: System, t: Id, r: Result<Pair>): Result<System>
  {
    var p :- r;
    Ok(System(s.timers[t := p.x], p.w))
  }

  function TakeTasks(w: Worker): Worker
  {
    w.(local := w.shared, shared := [], efd := false)
  }

  function CauseOf(task: Task): Cause
  {
    if task.StartTask? then StartTaskRun else StopTaskRun
  }

  function Apply(s: System, step: Step): (r: Result<System>)
    requires Enabled(s, step)
  {
    match step
    case DoInit(t) => Ok(s.(timers := s.timers[t := FRESH]))
    case DoStart(t, timeout) => Back(s, t, Start(View(s, t), t, timeout))
    case DoStop(t) => Back(s, t, Stop(View(s, t), t))
    case DoTerm(t) =>
      var _ :- Term(View(s, t), t);
      Ok(s.(timers := s.timers - {t}))
    case DoOwner(t) => Ok(s.(timers := s.timers[t := s.timers[t].(notes := s.timers[t].notes[1..])]))
    case DoTake => Ok(s.(w := TakeTasks(s.w)))
    case DoPop => Ok(s.(w := s.w.(local := s.w.local[1..], hand := Running(s.w.local[0]))))
    case DoRun(now) =>
      var task := s.w.hand.task;
      Back(s, task.t, Feed(Pair(s.timers[task.t], s.w.(hand := Nothing)), task.t, CauseOf(task), now))
    case DoExpire(t, _) => Ok(s.(w := s.w.(armed := s.w.armed - {t}, hand := Expiring(t))))
    case DoTell =>
      var t := s.w.hand.t;
      Back(s, t, Feed(Pair(s.timers[t], s.w.(hand := Nothing)), t, Expired, 0))
  }

  /** A run skips the steps that are not enabled and ends at the first fault. */
  function Run(s: System, steps: seq<Step>): (r: Result<System>)
    decreases |steps|
  {
    if steps == [] then Ok(s)
    else if !Enabled(s, steps[0]) then Run(s, steps[1..])
    else
      var s1 :- Apply(s, steps[0]);
      Run(s1, steps[1..])
  }

  const EMPTY := System(map[], Worker([], [], false, map[], Nothing))

  // ---------- the invariant ----------

  /** The worker's tasks in the order it runs them. */
  function Tasks(w: Worker): seq<Task>
  {
    (if w.hand.Running? then [w.hand.task] else []) + w.local + w.shared
  }

  ghost predicate Queued(s: System)
  {
    && (forall i, j | 0 <= i < j < |Tasks(s.w)| :: Tasks(s.w)[i] != Tasks(s.w)[j])
    && (forall x | x in Tasks(s.w) :: x.t in s.timers)
    && (forall t | t in s.w.armed :: t in s.timers)
    && (s.w.hand.Expiring? ==> s.w.hand.t in s.timers)
    && (s.w.shared != [] ==> s.w.efd)
  }

  /** One timer against the worker. */
  ghost predicate Agrees(x: Timer, w: Worker, t: Id)
  {
    var starting, stopping := StartTask(t) in Tasks(w), StopTask(t) in Tasks(w);
    var pending := t in w.armed || w.hand == Expiring(t);
    && (x.fsm == FsmIdle <==> x.state == Idle)
    && (x.fsm == FsmActive <==> x.state == Active)
    && !(t in w.armed && w.hand == Expiring(t))
    && match x.state
       case Idle => !starting && !stopping && !pending && (x.notes == [] || x.notes == [StoppedNote])
       case Active =>
         && !stopping && (starting ==> x.timeout >= 0) && (!starting ==> x.timeout == -1)
         && (x.notes == [] || x.notes == [TimeoutNote])
         && (starting ==> !pending && x.notes == []) && (pending ==> x.notes == [])
       case Stopping =>
         && stopping && (starting ==> !pending) && InOrder(Tasks(w), t) && x.notes == []
  }

  /** The stop of a timer is run after its start. */
  ghost predicate InOrder(q: seq<Task>, t: Id)
  {
    forall i, j | 0 <= i < |q| && 0 <= j < |q| && q[i] == StartTask(t) && q[j] == StopTask(t) :: i < j
  }

  ghost predicate Inv(s: System)
  {
    Queued(s) && forall t | t in s.timers :: Agrees(s.timers[t], s.w, t)
  }
}
