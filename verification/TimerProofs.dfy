/** Timers never hit a fatal check, and STOPPED means that nothing is left. */
module TimerProofs {
  import opened Outcome
  import opened CInts
  import opened TimerWorker

  lemma PushTask(q: seq<Task>, task: Task, t: Id)
    requires task !in q
    ensures forall x :: x in q + [task] <==> x in q || x == task
    ensures task == StopTask(t) ==> InOrder(q + [task], t)
    ensures task.t != t && InOrder(q, t) ==> InOrder(q + [task], t)
  {
  }

  lemma PopTask(q: seq<Task>, t: Id)
    requires q != [] && forall i, j | 0 <= i < j < |q| :: q[i] != q[j]
    ensures forall x :: x in q[1..] <==> x in q && x != q[0]
    ensures InOrder(q, t) ==> InOrder(q[1..], t)
    ensures InOrder(q, t) && q[0] == StopTask(t) ==> StartTask(t) !in q
  {
  }

  /** A timer still agrees with a worker that changed for others only. */
  lemma OtherAgrees(x: Timer, w: Worker, w2: Worker, t: Id)
    requires Agrees(x, w, t)
    requires StartTask(t) in Tasks(w) <==> StartTask(t) in Tasks(w2)
    requires StopTask(t) in Tasks(w) <==> StopTask(t) in Tasks(w2)
    requires t in w.armed <==> t in w2.armed
    requires w.hand == Expiring(t) <==> w2.hand == Expiring(t)
    requires InOrder(Tasks(w), t) ==> InOrder(Tasks(w2), t)
    ensures Agrees(x, w2, t)
  {
  }

  function Queueing(w: Worker, task: Task): Worker
  {
    w.(shared := w.shared + [task], efd := true)
  }

  /** One timer queues a task. */
  lemma QueueingKeeps(s: System, task: Task, x: Timer)
    requires Inv(s) && task.t in s.timers && task !in Tasks(s.w)
    requires Agrees(x, Queueing(s.w, task), task.t)
    ensures Inv(System(s.timers[task.t := x], Queueing(s.w, task)))
  {
    hide Agrees, InOrder;
    var w2 := Queueing(s.w, task);
    var s2 := System(s.timers[task.t := x], w2);
    assert Tasks(w2) == Tasks(s.w) + [task];
    PushTask(Tasks(s.w), task, task.t);
    forall t | t in s2.timers ensures Agrees(s2.timers[t], w2, t) {
      if t != task.t {
        PushTask(Tasks(s.w), task, t);
        OtherAgrees(s.timers[t], s.w, w2, t);
      }
    }
  }

  lemma StartKeeps(s: System, t: Id, timeout: int)
    requires Inv(s) && Enabled(s, DoStart(t, timeout))
    ensures Apply(s, DoStart(t, timeout)).Ok? && Inv(Apply(s, DoStart(t, timeout)).value)
  {
    var x := Timer(FsmActive, Active, timeout, []);
    assert Agrees(s.timers[t], s.w, t);
    PushTask(Tasks(s.w), StartTask(t), t);
    assert Tasks(Queueing(s.w, StartTask(t))) == Tasks(s.w) + [StartTask(t)];
    QueueingKeeps(s, StartTask(t), x);
    assert Start(View(s, t), t, timeout) == Ok(Pair(x, Queueing(s.w, StartTask(t))));
  }

  lemma StopKeeps(s: System, t: Id)
    requires Inv(s) && Enabled(s, DoStop(t))
    ensures Apply(s, DoStop(t)).Ok? && Inv(Apply(s, DoStop(t)).value)
  {
    assert Agrees(s.timers[t], s.w, t);
    if s.timers[t].fsm == FsmActive {
      var x := s.timers[t].(fsm := FsmStopping, state := Stopping);
      PushTask(Tasks(s.w), StopTask(t), t);
      assert Tasks(Queueing(s.w, StopTask(t))) == Tasks(s.w) + [StopTask(t)];
      QueueingKeeps(s, StopTask(t), x);
      assert Stop(View(s, t), t) == Ok(Pair(x, Queueing(s.w, StopTask(t))));
    } else {
      assert s.timers[t := s.timers[t]] == s.timers;
    }
  }

  lemma OwnerKeeps(s: System, t: Id)
    requires Inv(s) && Enabled(s, DoOwner(t))
    ensures Inv(Apply(s, DoOwner(t)).value)
  {
  }

  lemma TakeKeeps(s: System)
    requires Inv(s) && Enabled(s, DoTake)
    ensures Inv(Apply(s, DoTake).value)
  {
  }

  lemma ExpireKeeps(s: System, t: Id, now: int)
    requires Inv(s) && Enabled(s, DoExpire(t, now))
    ensures Inv(Apply(s, DoExpire(t, now)).value)
  {
  }

  lemma TellKeeps(s: System)
    requires Inv(s) && Enabled(s, DoTell)
    ensures Apply(s, DoTell).Ok? && Inv(Apply(s, DoTell).value)
  {
    var u := s.w.hand.t;
    assert Agrees(s.timers[u], s.w, u);
    TellIs(s);
    hide Apply, InOrder;
    var s2 := Apply(s, DoTell).value;
    assert Tasks(s2.w) == Tasks(s.w);
    forall t | t in s2.timers && t != u ensures Agrees(s2.timers[t], s2.w, t) {
      OtherAgrees(s.timers[t], s.w, s2.w, t);
    }
  }

  lemma TellIs(s: System)
    requires Enabled(s, DoTell) && Agrees(s.timers[s.w.hand.t], s.w, s.w.hand.t)
    ensures var u := s.w.hand.t; var x := s.timers[u];
            Apply(s, DoTell) ==
              Ok(System(s.timers[u := if x.state == Active then x.(notes := [TimeoutNote]) else x],
                        s.w.(hand := Nothing)))
  {
    hide Tasks, InOrder;
    assert s.timers[s.w.hand.t].notes + [TimeoutNote] == [TimeoutNote];
  }

  lemma PopKeeps(s: System)
    requires Inv(s) && Enabled(s, DoPop)
    ensures Inv(Apply(s, DoPop).value)
  {
    var s2 := Apply(s, DoPop).value;
    assert s.w.local == [s.w.local[0]] + s.w.local[1..];
    assert Tasks(s2.w) == Tasks(s.w);
    forall t | t in s2.timers ensures Agrees(s2.timers[t], s2.w, t) {
      OtherAgrees(s.timers[t], s.w, s2.w, t);
    }
  }

  /** A step that ends the task in hand and changes its timer only. */
  lemma EndKeeps(s: System, s2: System, t: Id)
    requires Inv(s) && s.w.hand.Running? && s.w.hand.task.t == t && t in s.timers && s2.w.hand == Nothing
    requires Tasks(s2.w) == Tasks(s.w)[1..] && (s2.w.shared != [] ==> s2.w.efd)
    requires s2.timers.Keys == s.timers.Keys
    requires forall u | u in s.timers && u != t :: s2.timers[u] == s.timers[u] && (u in s.w.armed <==> u in s2.w.armed)
    requires forall u | u in s2.w.armed :: u in s.timers
    requires Agrees(s2.timers[t], s2.w, t)
    ensures Inv(s2)
  {
    hide Agrees, InOrder, Tasks;
    forall u | u in s2.timers ensures Agrees(s2.timers[u], s2.w, u) {
      if u != t {
        OthersAgree(s, s2, t, u);
      }
    }
    EndQueued(s, s2, t);
  }

  lemma OthersAgree(s: System, s2: System, t: Id, u: Id)
    requires Inv(s) && s.w.hand.Running? && s.w.hand.task.t == t && u in s.timers && u != t && s2.w.hand == Nothing
    requires Tasks(s2.w) == Tasks(s.w)[1..] && (u in s.w.armed <==> u in s2.w.armed)
    ensures Agrees(s.timers[u], s2.w, u)
  {
    assert Tasks(s.w)[0] == s.w.hand.task by { HandFirst(s.w); }
    PopTask(Tasks(s.w), u);
    assert Agrees(s.timers[u], s.w, u);
    hide Tasks, Agrees, InOrder;
    OtherAgrees(s.timers[u], s.w, s2.w, u);
  }

  /** The tasks that are left belong to timers there are, each queued once. */
  lemma EndQueued(s: System, s2: System, t: Id)
    requires Queued(s) && s.w.hand.Running? && s.w.hand.task.t == t && t in s.timers && s2.w.hand == Nothing
    requires Tasks(s2.w) == Tasks(s.w)[1..] && (s2.w.shared != [] ==> s2.w.efd)
    requires s2.timers.Keys == s.timers.Keys && forall u | u in s2.w.armed :: u in s.timers
    ensures Queued(s2)
  {
    HandFirst(s.w);
    PopTask(Tasks(s.w), t);
    hide Tasks, InOrder;
  }

  lemma HandFirst(w: Worker)
    requires w.hand.Running?
    ensures Tasks(w) != [] && Tasks(w)[0] == w.hand.task && w.hand.task in Tasks(w)
    ensures Tasks(w.(hand := Nothing)) == Tasks(w)[1..]
  {
  }

  /** A start task arms its timer, or is ignored because the timer was stopped since. */
  function Started(s: System, t: Id, now: int): System
    requires t in s.timers
  {
    if s.timers[t].state != Active then s.(w := s.w.(hand := Nothing))
    else System(s.timers[t := s.timers[t].(timeout := -1)],
                s.w.(hand := Nothing, armed := s.w.armed[t := (now + s.timers[t].timeout) % U64]))
  }

  lemma RunStartIs(s: System, now: int)
    requires Inv(s) && Enabled(s, DoRun(now)) && s.w.hand.task.StartTask?
    ensures var t := s.w.hand.task.t; t in s.timers && Apply(s, DoRun(now)) == Ok(Started(s, t, now))
  {
    HandFirst(s.w);
    var t := s.w.hand.task.t;
    assert Agrees(s.timers[t], s.w, t);
    hide Tasks, InOrder;
    assert s.timers[t := s.timers[t]] == s.timers;
  }

  lemma StartedAgrees(s: System, t: Id, now: int)
    requires t in s.timers && s.w.hand == Running(StartTask(t)) && Agrees(s.timers[t], s.w, t)
    requires forall i, j | 0 <= i < j < |Tasks(s.w)| :: Tasks(s.w)[i] != Tasks(s.w)[j]
    ensures var s2 := Started(s, t, now);
            Tasks(s2.w) == Tasks(s.w)[1..] && Agrees(s2.timers[t], s2.w, t)
  {
    HandFirst(s.w);
    PopTask(Tasks(s.w), t);
    StartedTasks(s, t, now);
    hide Tasks, InOrder;
  }

  lemma StartedTasks(s: System, t: Id, now: int)
    requires t in s.timers && s.w.hand.Running?
    ensures Tasks(Started(s, t, now).w) == Tasks(s.w)[1..]
  {
  }

  lemma RunStartKeeps(s: System, now: int)
    requires Inv(s) && Enabled(s, DoRun(now)) && s.w.hand.task.StartTask?
    ensures Apply(s, DoRun(now)).Ok? && Inv(Apply(s, DoRun(now)).value)
  {
    hide Apply, Agrees, Tasks;
    RunStartIs(s, now);
    var t := s.w.hand.task.t;
    StartedAgrees(s, t, now);
    EndKeeps(s, Started(s, t, now), t);
  }

  /** The state after the stop task of t was run. */
  function Stopped(s: System, t: Id): System
    requires t in s.timers
  {
    System(s.timers[t := s.timers[t].(state := Idle, fsm := FsmIdle, notes := [StoppedNote])],
           s.w.(hand := Nothing, armed := s.w.armed - {t}))
  }

  lemma RunStopIs(s: System, now: int)
    requires Inv(s) && Enabled(s, DoRun(now)) && s.w.hand.task.StopTask?
    ensures var t := s.w.hand.task.t;
            s.timers[t].state == Stopping && Apply(s, DoRun(now)) == Ok(Stopped(s, t))
  {
    HandFirst(s.w);
    var t := s.w.hand.task.t;
    assert Agrees(s.timers[t], s.w, t);
    assert s.timers[t].notes + [StoppedNote] == [StoppedNote];
  }

  lemma StoppedAgrees(s: System, t: Id)
    requires t in s.timers && s.timers[t].state == Stopping && s.w.hand == Running(StopTask(t))
    requires Agrees(s.timers[t], s.w, t)
    requires forall i, j | 0 <= i < j < |Tasks(s.w)| :: Tasks(s.w)[i] != Tasks(s.w)[j]
    ensures var s2 := Stopped(s, t);
            Tasks(s2.w) == Tasks(s.w)[1..] && Agrees(s2.timers[t], s2.w, t)
  {
    HandFirst(s.w);
    PopTask(Tasks(s.w), t);
  }

  lemma RunStopKeeps(s: System, now: int)
    requires Inv(s) && Enabled(s, DoRun(now)) && s.w.hand.task.StopTask?
    ensures Apply(s, DoRun(now)).Ok? && Inv(Apply(s, DoRun(now)).value)
  {
    hide Apply, Agrees, Tasks;
    RunStopIs(s, now);
    var t := s.w.hand.task.t;
    StoppedAgrees(s, t);
    EndKeeps(s, Stopped(s, t), t);
  }

  lemma InitKeeps(s: System, t: Id)
    requires Inv(s) && t !in s.timers
    ensures Inv(s.(timers := s.timers[t := FRESH]))
  {
  }

  lemma TermKeeps(s: System, t: Id)
    requires Inv(s) && Enabled(s, DoTerm(t))
    ensures Apply(s, DoTerm(t)).Ok? && Inv(Apply(s, DoTerm(t)).value)
  {
  }

  lemma StepKeeps(s: System, step: Step)
    requires Inv(s) && Enabled(s, step)
    ensures Apply(s, step).Ok? && Inv(Apply(s, step).value)
  {
    match step
    case DoInit(t) => InitKeeps(s, t);
    case DoStart(t, timeout) => StartKeeps(s, t, timeout);
    case DoStop(t) => StopKeeps(s, t);
    case DoTerm(t) => TermKeeps(s, t);
    case DoOwner(t) => OwnerKeeps(s, t);
    case DoTake => TakeKeeps(s);
    case DoPop => PopKeeps(s);
    case DoRun(now) => if s.w.hand.task.StartTask? { RunStartKeeps(s, now); } else { RunStopKeeps(s, now); }
    case DoExpire(t, now) => ExpireKeeps(s, t, now);
    case DoTell => TellKeeps(s);
  }

  // ---------- every run ----------

  /** Whatever owners and the worker do, no fatal check is reached. */
  lemma {:induction false} RunIsSafe(s: System, steps: seq<Step>)
    requires Inv(s)
    ensures Run(s, steps).Ok? && Inv(Run(s, steps).value)
    decreases |steps|
  {
    if steps != [] {
      if Enabled(s, steps[0]) {
        StepKeeps(s, steps[0]);
        RunIsSafe(Apply(s, steps[0]).value, steps[1..]);
      } else {
        RunIsSafe(s, steps[1..]);
      }
    }
  }

  ghost predicate Reachable(s: System)
  {
    exists steps :: Run(EMPTY, steps) == Ok(s)
  }

  lemma ReachableKeepsInv(s: System)
    requires Reachable(s)
    ensures Inv(s)
  {
    var steps :| Run(EMPTY, steps) == Ok(s);
    RunIsSafe(EMPTY, steps);
  }

  /** A timer that reported STOPPED, or was never started, has no task queued, taken
      or in hand, is not in the timer set and is not about to be told of an expiry. */
  lemma StoppedIsClean(s: System, t: Id)
    requires Reachable(s) && t in s.timers
    requires StoppedNote in s.timers[t].notes || s.timers[t].fsm == FsmIdle
    ensures StartTask(t) !in s.w.local && StopTask(t) !in s.w.local
    ensures StartTask(t) !in s.w.shared && StopTask(t) !in s.w.shared
    ensures t !in s.w.armed && s.w.hand !in {Expiring(t), Running(StartTask(t)), Running(StopTask(t))}
    ensures Term(View(s, t), t).Ok?
  {
    ReachableKeepsInv(s);
    assert Agrees(s.timers[t], s.w, t);
    assert forall x | x in s.w.local || x in s.w.shared || s.w.hand == Running(x) :: x in Tasks(s.w);
  }

  /** The thread is awake whenever a task waits for it. */
  lemma NoLostWakeUp(s: System)
    requires Reachable(s) && s.w.shared != []
    ensures s.w.efd
  {
    ReachableKeepsInv(s);
  }

  predicate Restarts(step: Step, t: Id)
  {
    match step
    case DoInit(u) => u == t
    case DoStart(u, _) => u == t
    case _ => false
  }

  predicate IsOn(s: System, t: Id)
  {
    t in s.timers && s.timers[t].fsm == FsmActive
  }

  predicate TimeoutWaits(s: System, t: Id)
  {
    t in s.timers && TimeoutNote in s.timers[t].notes
  }

  lemma SilentStep(s: System, step: Step, t: Id)
    requires Inv(s) && Enabled(s, step) && Apply(s, step).Ok? && !Restarts(step, t) && !IsOn(s, t)
    ensures !IsOn(Apply(s, step).value, t)
    ensures TimeoutWaits(Apply(s, step).value, t) ==> TimeoutWaits(s, t)
  {
    hide InOrder;
    if t in s.timers {
      assert Agrees(s.timers[t], s.w, t);
    }
  }

  /** From a stop on no timeout is raised until the timer is started again: one
      that still waits for the owner was raised before. */
  lemma {:induction false} NoTimeoutUntilRestart(s: System, t: Id, steps: seq<Step>)
    requires Inv(s) && !IsOn(s, t) && forall i | 0 <= i < |steps| :: !Restarts(steps[i], t)
    ensures Run(s, steps).Ok? && !IsOn(Run(s, steps).value, t)
    ensures TimeoutWaits(Run(s, steps).value, t) ==> TimeoutWaits(s, t)
    decreases |steps|
  {
    hide Inv, Enabled, Apply;
    if steps != [] {
      if Enabled(s, steps[0]) {
        StepKeeps(s, steps[0]);
        SilentStep(s, steps[0], t);
        NoTimeoutUntilRestart(Apply(s, steps[0]).value, t, steps[1..]);
      } else {
        NoTimeoutUntilRestart(s, t, steps[1..]);
      }
    }
  }

  /** An idle timer may be started again at any time, whatever the worker is doing. */
  lemma IdleMayRestart(s: System, t: Id, timeout: int, steps: seq<Step>)
    requires Reachable(s) && Quiet(s, t) && s.timers[t].fsm == FsmIdle && timeout >= 0
    ensures Enabled(s, DoStart(t, timeout)) && Apply(s, DoStart(t, timeout)).Ok?
    ensures IsOn(Apply(s, DoStart(t, timeout)).value, t)
    ensures Run(Apply(s, DoStart(t, timeout)).value, steps).Ok?
  {
    ReachableKeepsInv(s);
    StartKeeps(s, t, timeout);
    RunIsSafe(Apply(s, DoStart(t, timeout)).value, steps);
  }

  // ---------- every stop is answered ----------

  /** The owner of a timer has processed what the timer raised. */
  function Heard(s: System, t: Id): System
    requires t in s.timers
  {
    s.(timers := s.timers[t := s.timers[t].(notes := [])])
  }

  lemma OwnerHears(s: System, t: Id, rest: seq<Step>)
    requires Inv(s) && t in s.timers
    ensures Inv(Heard(s, t)) && Quiet(Heard(s, t), t)
    ensures Run(s, [DoOwner(t)] + rest) == Run(Heard(s, t), rest)
  {
    hide Agrees, Run;
    assert |s.timers[t].notes| <= 1 by { OneNote(s, t); }
    RunOne(s, DoOwner(t), rest);
    if s.timers[t].notes == [] {
      assert s.timers[t := s.timers[t]] == s.timers;
    } else {
      OwnerKeeps(s, t);
      assert s.timers[t].notes[1..] == [];
    }
  }

  lemma OneNote(s: System, t: Id)
    requires Inv(s) && t in s.timers
    ensures |s.timers[t].notes| <= 1
  {
  }

  lemma RunOne(s: System, step: Step, rest: seq<Step>)
    ensures Run(s, [step] + rest) ==
            if !Enabled(s, step) then Run(s, rest)
            else if Apply(s, step).Ok? then Run(Apply(s, step).value, rest)
            else Abort(Apply(s, step).file, Apply(s, step).line)
  {
  }

  /** What is left to do before the stop task of a stopping timer is run. */
  lemma StillStopping(s: System, step: Step, t: Id)
    requires Inv(s) && t in s.timers && s.timers[t].state == Stopping && Enabled(s, step) && Apply(s, step).Ok?
    requires step in {DoTake, DoPop, DoTell} || (step.DoRun? && s.w.hand.task != StopTask(t))
    ensures var s2 := Apply(s, step).value;
            && t in s2.timers && s2.timers[t].state == Stopping
            && (step == DoTell ==> s2.w == s.w.(hand := Nothing))
            && (step.DoRun? ==> s2.w == s.w.(hand := Nothing, armed := s2.w.armed))
  {
    if step.DoRun? {
      RunStays(s, t, step.now);
    } else if step == DoTell {
      TellStays(s, t);
    }
    hide Inv, Handler, Shutdown, Feed, InOrder;
  }

  lemma RunStays(s: System, t: Id, now: int)
    requires Inv(s) && t in s.timers && s.timers[t].state == Stopping
    requires Enabled(s, DoRun(now)) && Apply(s, DoRun(now)).Ok?
    requires s.w.hand.task != StopTask(t)
    ensures var s2 := Apply(s, DoRun(now)).value;
            && t in s2.timers && s2.timers[t].state == Stopping
            && s2.w == s.w.(hand := Nothing, armed := s2.w.armed)
  {
    hide Inv, Apply, Tasks, InOrder;
    if s.w.hand.task.StartTask? {
      RunStartIs(s, now);
    } else {
      RunStopIs(s, now);
    }
  }

  lemma TellStays(s: System, t: Id)
    requires Inv(s) && t in s.timers && s.timers[t].state == Stopping && Enabled(s, DoTell) && Apply(s, DoTell).Ok?
    ensures var s2 := Apply(s, DoTell).value;
            t in s2.timers && s2.timers[t].state == Stopping && s2.w == s.w.(hand := Nothing)
  {
    hide InOrder, Tasks;
    assert Agrees(s.timers[s.w.hand.t], s.w, s.w.hand.t) && Agrees(s.timers[t], s.w, t);
  }

  lemma TaskWaits(s: System, t: Id)
    requires Inv(s) && t in s.timers && s.timers[t].state == Stopping && s.w.hand == Nothing && s.w.local == []
    ensures s.w.shared != [] && s.w.efd
  {
  }

  /** Every stop is answered: whatever is queued, steps of the worker and of the
      owners lead to the timer reporting STOPPED. */
  lemma StopCompletes(s: System, t: Id) returns (steps: seq<Step>)
    requires Inv(s) && t in s.timers && s.timers[t].state == Stopping
    ensures Run(s, steps).Ok?
    ensures var s2 := Run(s, steps).value;
            t in s2.timers && s2.timers[t].fsm == FsmIdle && StoppedNote in s2.timers[t].notes
    decreases 2 * (|s.w.local| + |s.w.shared|) + (if s.w.hand == Nothing then 0 else 1), |s.w.shared|
  {
    hide Inv, Apply, Run;
    if s.w.hand.Running? {
      assert s.w.hand.task.t in s.timers by { HandKnown(s); }
      var u := s.w.hand.task.t;
      OwnerHears(s, u, [DoRun(0)] + []);
      var s1 := Heard(s, u);
      StepKeeps(s1, DoRun(0));
      var s2 := Apply(s1, DoRun(0)).value;
      if s.w.hand.task == StopTask(t) {
        RunStopIs(s1, 0);
        steps := [DoOwner(u)] + ([DoRun(0)] + []);
        RunOne(s1, DoRun(0), []);
        RunNothing(s2);
      } else {
        StillStopping(s1, DoRun(0), t);
        var rest := StopCompletes(s2, t);
        RunOne(s1, DoRun(0), rest);
        OwnerHears(s, u, [DoRun(0)] + rest);
        steps := [DoOwner(u)] + ([DoRun(0)] + rest);
      }
    } else if s.w.hand.Expiring? {
      assert s.w.hand.t in s.timers by { HandKnown(s); }
      var u := s.w.hand.t;
      var s1 := Heard(s, u);
      OwnerHears(s, u, []);
      StepKeeps(s1, DoTell);
      StillStopping(s1, DoTell, t);
      var rest := StopCompletes(Apply(s1, DoTell).value, t);
      RunOne(s1, DoTell, rest);
      OwnerHears(s, u, [DoTell] + rest);
      steps := [DoOwner(u)] + ([DoTell] + rest);
    } else {
      var step := if s.w.local != [] then DoPop else DoTake;
      if s.w.local == [] {
        TaskWaits(s, t);
      }
      StepKeeps(s, step);
      StillStopping(s, step, t);
      NextTask(s, step);
      var rest := StopCompletes(Apply(s, step).value, t);
      RunOne(s, step, rest);
      steps := [step] + rest;
    }
  }

  /** Whatever the schedule: once the worker has nothing left to do, no timer is stopping. */
  lemma NothingLeft(s: System, t: Id)
    requires Reachable(s) && t in s.timers && s.w.hand == Nothing && s.w.local == [] && s.w.shared == []
    ensures s.timers[t].fsm != FsmStopping
  {
    ReachableKeepsInv(s);
    assert Agrees(s.timers[t], s.w, t);
  }

  lemma NextTask(s: System, step: Step)
    requires Enabled(s, step) && step in {DoTake, DoPop} && (step == DoTake ==> s.w.shared != [])
    ensures var w, w2 := s.w, Apply(s, step).value.w;
            if step == DoPop then |w2.local| == |w.local| - 1 && w2.shared == w.shared
            else |w2.local| == |w.shared| && w2.shared == [] && w.local == [] && w2.hand == Nothing
  {
  }

  lemma HandKnown(s: System)
    requires Inv(s)
    ensures s.w.hand.Running? ==> s.w.hand.task.t in s.timers
    ensures s.w.hand.Expiring? ==> s.w.hand.t in s.timers
  {
  }

  lemma RunNothing(s: System)
    ensures Run(s, []) == Ok(s)
  {
  }
}
