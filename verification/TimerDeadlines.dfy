/** A started timer is handed out when its time is over: never before, and from then on
    as soon as the thread gets to the timer set. */
module TimerDeadlines {
  import opened Outcome
  import opened CInts
  import opened TimerWorker
  import opened TimerProofs

  /** t runs, and until its start task is run it remembers the duration d. */
  predicate Timed(s: System, t: Id, d: int)
  {
    IsOn(s, t) && s.timers[t].state == Active && (StartTask(t) in Tasks(s.w) ==> s.timers[t].timeout == d)
  }

  lemma TimedStep(s: System, step: Step, t: Id, d: int)
    requires Inv(s) && Enabled(s, step) && Apply(s, step).Ok? && Timed(s, t, d) && step != DoStop(t)
    ensures Timed(Apply(s, step).value, t, d)
  {
    hide Inv, InOrder, Feed, Stop, Start, Execute, FirstDue;
    match step
    case DoRun(now) => RunTimed(s, now, t, d);
    case DoTell => TellTimed(s, t, d);
    case DoStart(u, _) => OwnerTimed(s, step, u, t, d);
    case DoStop(u) => OwnerTimed(s, step, u, t, d);
    case DoPop => PopTimed(s, t, d);
    case _ =>
  }

  lemma PopTimed(s: System, t: Id, d: int)
    requires Enabled(s, DoPop) && Timed(s, t, d)
    ensures Timed(Apply(s, DoPop).value, t, d)
  {
    assert Tasks(Apply(s, DoPop).value.w) == Tasks(s.w);
  }

  /** What the owner of u does puts at most a task of u on the queue. */
  lemma OwnerTimed(s: System, step: Step, u: Id, t: Id, d: int)
    requires step.DoStart? || step.DoStop?
    requires Enabled(s, step) && Apply(s, step).Ok? && Timed(s, t, d) && step != DoStop(t) && step.t == u
    ensures Timed(Apply(s, step).value, t, d)
  {
    hide InOrder;
  }

  lemma RunTimed(s: System, now: int, t: Id, d: int)
    requires Inv(s) && Enabled(s, DoRun(now)) && Timed(s, t, d)
    ensures Apply(s, DoRun(now)).Ok? && Timed(Apply(s, DoRun(now)).value, t, d)
  {
    assert s.w.hand.Running?;
    hide Inv, Apply, Enabled, Timed, Started, Stopped;
    if s.w.hand.task.StartTask? {
      RunStartIs(s, now);
      StartedTimed(s, s.w.hand.task.t, now, t, d);
    } else {
      RunStopIs(s, now);
      StoppedTimed(s, s.w.hand.task.t, t, d);
    }
  }

  lemma StartedTimed(s: System, u: Id, now: int, t: Id, d: int)
    requires Inv(s) && u in s.timers && s.w.hand == Running(StartTask(u)) && Timed(s, t, d)
    ensures Timed(Started(s, u, now), t, d)
  {
    hide Inv, Tasks;
    TasksLeft(s, t);
    StartedTasks(s, u, now);
  }

  lemma StoppedTimed(s: System, u: Id, t: Id, d: int)
    requires Inv(s) && u in s.timers && s.w.hand == Running(StopTask(u)) && Timed(s, t, d)
    ensures Timed(Stopped(s, u), t, d)
  {
    hide Inv;
    assert Tasks(Stopped(s, u).w) == Tasks(s.w)[1..];
    hide Tasks;
    TasksLeft(s, t);
    NoStop(s, t);
  }

  lemma TasksLeft(s: System, t: Id)
    requires Inv(s) && s.w.hand.Running?
    ensures Tasks(s.w) != [] && s.w.hand.task in Tasks(s.w)
    ensures forall x :: x in Tasks(s.w)[1..] <==> x in Tasks(s.w) && x != s.w.hand.task
  {
    HandFirst(s.w);
    PopTask(Tasks(s.w), t);
  }

  lemma NoStop(s: System, t: Id)
    requires Inv(s) && IsOn(s, t)
    ensures StopTask(t) !in Tasks(s.w) && (t in s.w.armed ==> StartTask(t) !in Tasks(s.w))
  {
  }

  lemma TellTimed(s: System, t: Id, d: int)
    requires Inv(s) && Enabled(s, DoTell) && Timed(s, t, d)
    ensures Apply(s, DoTell).Ok? && Timed(Apply(s, DoTell).value, t, d)
  {
    hide Agrees;
    HandKnown(s);
    TellIs(s);
    hide Apply, Inv, Enabled, InOrder;
  }

  lemma StartIsTimed(s: System, t: Id, d: int)
    requires Inv(s) && Enabled(s, DoStart(t, d))
    ensures Apply(s, DoStart(t, d)).Ok? && Inv(Apply(s, DoStart(t, d)).value)
    ensures Timed(Apply(s, DoStart(t, d)).value, t, d)
  {
    StartKeeps(s, t, d);
  }

  /** Whatever happens meanwhile, a running timer keeps its duration. */
  lemma {:induction false} StaysTimed(s: System, steps: seq<Step>, t: Id, d: int)
    requires Inv(s) && Timed(s, t, d) && DoStop(t) !in steps
    ensures Run(s, steps).Ok? && Inv(Run(s, steps).value) && Timed(Run(s, steps).value, t, d)
    decreases |steps|
  {
    hide Inv, Enabled, Apply, Timed;
    if steps != [] {
      if Enabled(s, steps[0]) {
        StepKeeps(s, steps[0]);
        TimedStep(s, steps[0], t, d);
        StaysTimed(Apply(s, steps[0]).value, steps[1..], t, d);
      } else {
        StaysTimed(s, steps[1..], t, d);
      }
    }
  }

  /** t runs and is in the timer set with this deadline. */
  predicate InSet(s: System, t: Id, deadline: int)
  {
    IsOn(s, t) && t in s.w.armed && s.w.armed[t] == deadline
  }

  /** The timer is stopped, or handed out of the timer set. */
  predicate Ends(step: Step, t: Id)
  {
    step == DoStop(t) || (step.DoExpire? && step.t == t)
  }

  lemma SetStep(s: System, step: Step, t: Id, deadline: int)
    requires Inv(s) && Enabled(s, step) && Apply(s, step).Ok? && InSet(s, t, deadline) && !Ends(step, t)
    ensures InSet(Apply(s, step).value, t, deadline)
  {
    hide Inv, InOrder, Tasks, FirstDue, Feed;
    match step
    case DoRun(now) => RunKeepsSet(s, now, t, deadline);
    case DoTell => TellKeepsSet(s, t, deadline);
    case _ =>
  }

  lemma RunKeepsSet(s: System, now: int, t: Id, deadline: int)
    requires Inv(s) && Enabled(s, DoRun(now)) && InSet(s, t, deadline)
    ensures Apply(s, DoRun(now)).Ok? && InSet(Apply(s, DoRun(now)).value, t, deadline)
  {
    assert s.w.hand.Running?;
    HandIsOther(s, t);
    hide Inv, Apply, Enabled, Tasks, InSet, Started, Stopped;
    if s.w.hand.task.StartTask? {
      RunStartIs(s, now);
      OtherEnds(s, s.w.hand.task.t, now, t, deadline);
    } else {
      RunStopIs(s, now);
      OtherEnds(s, s.w.hand.task.t, now, t, deadline);
    }
  }

  lemma OtherEnds(s: System, u: Id, now: int, t: Id, deadline: int)
    requires u in s.timers && u != t && InSet(s, t, deadline)
    ensures InSet(Started(s, u, now), t, deadline) && InSet(Stopped(s, u), t, deadline)
  {
  }

  lemma HandIsOther(s: System, t: Id)
    requires Inv(s) && s.w.hand.Running? && IsOn(s, t) && t in s.w.armed
    ensures s.w.hand.task.t != t
  {
    hide Inv, Tasks;
    HandFirst(s.w);
    NoStop(s, t);
  }

  lemma TellKeepsSet(s: System, t: Id, deadline: int)
    requires Inv(s) && Enabled(s, DoTell) && InSet(s, t, deadline)
    ensures Apply(s, DoTell).Ok? && InSet(Apply(s, DoTell).value, t, deadline)
  {
    hide Agrees;
    HandKnown(s);
    TellIs(s);
    hide Apply, Inv, Enabled, Tasks;
  }

  lemma {:induction false} StaysSet(s: System, steps: seq<Step>, t: Id, deadline: int)
    requires Inv(s) && InSet(s, t, deadline) && forall i | 0 <= i < |steps| :: !Ends(steps[i], t)
    ensures Run(s, steps).Ok? && InSet(Run(s, steps).value, t, deadline)
    decreases |steps|
  {
    hide Inv, Enabled, Apply, InSet;
    if steps != [] {
      if Enabled(s, steps[0]) {
        StepKeeps(s, steps[0]);
        SetStep(s, steps[0], t, deadline);
        StaysSet(Apply(s, steps[0]).value, steps[1..], t, deadline);
      } else {
        StaysSet(s, steps[1..], t, deadline);
      }
    }
  }

  /** Among deadlines one of which is reached, some earliest one is. */
  lemma {:induction false} SomeFirst(armed: map<Id, int>, t: Id, now: int) returns (u: Id)
    requires t in armed && armed[t] <= now
    ensures FirstDue(armed, u, now)
    decreases |armed|
  {
    if v :| v in armed && armed[v] < armed[t] {
      u := SomeFirst(armed - {t}, v, now);
      assert v in armed - {t} && forall w | w in armed && w != t :: w in armed - {t};
    } else {
      u := t;
    }
  }

  /** The thread has the start task of a running timer in hand and runs it. */
  lemma RunSets(s: System, t: Id, d: int, now: int)
    requires Inv(s) && Timed(s, t, d) && s.w.hand == Running(StartTask(t)) && Enabled(s, DoRun(now))
    ensures Apply(s, DoRun(now)).Ok? && Inv(Apply(s, DoRun(now)).value)
    ensures InSet(Apply(s, DoRun(now)).value, t, (now + d) % U64)
  {
    hide Inv, Apply, Enabled, Tasks;
    StepKeeps(s, DoRun(now));
    RunStartIs(s, now);
    HandFirst(s.w);
  }

  /** A timer in the set is not handed out before its deadline, and from then on some
      timer is: this one if no other deadline is earlier. */
  lemma WhenDue(s: System, t: Id, deadline: int, later: int)
    requires InSet(s, t, deadline)
    ensures t in s.w.armed
    ensures Enabled(s, DoExpire(t, later)) ==> deadline <= later
    ensures deadline <= later && s.w.local == [] && s.w.hand == Nothing ==>
              && (exists u :: Enabled(s, DoExpire(u, later)))
              && ((forall u | u in s.w.armed :: deadline <= s.w.armed[u]) ==> Enabled(s, DoExpire(t, later)))
  {
    if deadline <= later && s.w.local == [] && s.w.hand == Nothing {
      var u := SomeFirst(s.w.armed, t, later);
      assert Enabled(s, DoExpire(u, later));
    }
  }

  /** A timer is started with duration d and its start task is run at the reading `now`;
      before and after that anything may happen but that it is stopped or handed out.  Then
      it is in the timer set, it is not handed out at a reading before now + d, and at any
      reading from then on the thread, when it looks, finds a timer that is due: this one
      if no other deadline is earlier.  The clock has 64 bits. */
  lemma HandedOutOnTime(s: System, t: Id, d: int, before: seq<Step>, now: int, after: seq<Step>, later: int)
    requires Inv(s) && Enabled(s, DoStart(t, d)) && DoStop(t) !in before
    requires forall i | 0 <= i < |after| :: !Ends(after[i], t)
    requires Run(s, [DoStart(t, d)] + before).Ok?
    requires var s1 := Run(s, [DoStart(t, d)] + before).value;
             s1.w.hand == Running(StartTask(t)) && Enabled(s1, DoRun(now))
    ensures var s1 := Run(s, [DoStart(t, d)] + before).value;
            var r := Run(s1, [DoRun(now)] + after);
            r.Ok? &&
            var s2, deadline := r.value, (now + d) % U64;
            && t in s2.w.armed
            && (Enabled(s2, DoExpire(t, later)) ==> deadline <= later)
            && (deadline <= later && s2.w.local == [] && s2.w.hand == Nothing ==>
                  && (exists u :: Enabled(s2, DoExpire(u, later)))
                  && ((forall u | u in s2.w.armed :: deadline <= s2.w.armed[u]) ==> Enabled(s2, DoExpire(t, later))))
  {
    hide Inv, Apply, Run, Timed, Enabled, InSet;
    StartIsTimed(s, t, d);
    var s0 := Apply(s, DoStart(t, d)).value;
    RunOne(s, DoStart(t, d), before);
    StaysTimed(s0, before, t, d);
    var s1 := Run(s, [DoStart(t, d)] + before).value;
    RunSets(s1, t, d, now);
    RunOne(s1, DoRun(now), after);
    var s3 := Apply(s1, DoRun(now)).value;
    StaysSet(s3, after, t, (now + d) % U64);
    WhenDue(Run(s3, after).value, t, (now + d) % U64, later);
  }
}
