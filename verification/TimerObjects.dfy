/** The timer as an object on its worker; each method is tied to the function of
    module TimerWorker that gives its meaning, and `ok` is false when the process
    stops at a fatal check. */
module TimerObjects {
  import opened Outcome
  import opened WorkerObjects
  import Q = Queues
  import L = Lists
  import TS = TimerSets
  import TW = TimerWorker

  class Timer {
    const id: TW.Id
    const worker: Worker
    const startTask: TaskItem
    const stopTask: TaskItem
    const hndl: TS.Hndl
    var fsm: TW.FsmState
    var state: TW.State
    var timeout: int
    var notes: seq<TW.Note>

    /** The worker knows this timer's tasks and handle. */
    ghost predicate Valid()
      reads worker, worker.Foot()
    {
      && worker.Valid()
      && TW.StartTask(id) in worker.Items && worker.Items[TW.StartTask(id)] == startTask
      && TW.StopTask(id) in worker.Items && worker.Items[TW.StopTask(id)] == stopTask
      && id in worker.Handles && worker.Handles[id] == hndl
      && startTask.owner == TW.StartTask(id) && stopTask.owner == TW.StopTask(id) && hndl.owner.timer == id
    }

    ghost function Abs(): TW.Timer
      reads this
    {
      TW.Timer(fsm, state, timeout, notes)
    }

    ghost function Both(): TW.Pair
      reads this, worker, worker.Foot()
    {
      TW.Pair(Abs(), worker.Abs())
    }

    constructor (id: TW.Id, worker: Worker)
      requires worker.Valid() && id !in worker.Handles
      requires TW.StartTask(id) !in worker.Items && TW.StopTask(id) !in worker.Items
      modifies worker
      ensures Valid() && Abs() == TW.FRESH && this.id == id && this.worker == worker
      ensures worker.Abs() == old(worker.Abs())
    {
      hide Worker.Valid, Worker.Foot, Worker.Abs;
      worker.Placed();
      this.id, this.worker := id, worker;
      fsm, state, timeout, notes := TW.FsmIdle, TW.Idle, -1, [];
      startTask := new Q.Item<TW.Task>(TW.StartTask(id));
      stopTask := new Q.Item<TW.Task>(TW.StopTask(id));
      var expiry := new TS.Expiry(id);
      hndl := new L.ListItem(expiry);
      new;
      worker.Admit(id, startTask, stopTask, hndl);
    }

    lemma Alone()
      ensures this !in worker.Foot() && worker in worker.Foot() && worker.Armed() == worker.Abs().armed
      ensures forall o | o in worker.Foot() :: allocated(o)
    {
    }

    method Raise(n: TW.Note) returns (ok: bool)
      modifies this`notes
      ensures ok <==> TW.Raise(old(Abs()), n).Ok?
      ensures ok ==> TW.Raise(old(Abs()), n) == Ok(Abs())
      ensures ok <==> n !in old(notes)
      ensures notes == old(notes) + if ok then [n] else []
    {
      if n in notes {
        return false;
      }
      notes := notes + [n];
      return true;
    }

    method Handler(c: TW.Cause, now: int) returns (ok: bool)
      requires Valid()
      modifies this, worker.Foot()
      ensures ok <==> TW.Handler(old(Both()), id, c, now).Ok?
      ensures ok ==> Valid() && TW.Handler(old(Both()), id, c, now) == Ok(Both())
      ensures ok <==> match old(state)
                case Idle =>
                  c == TW.StartAction && TW.StartTask(id) !in old(worker.Abs()).shared + old(worker.Abs()).local
                case Active =>
                  || (c == TW.StartTaskRun && old(timeout) >= 0 && id !in old(worker.Abs()).armed)
                  || (c == TW.Expired && old(timeout) == -1 && TW.TimeoutNote !in old(notes))
                case Stopping => false
      ensures ok ==> worker.Abs().armed == if old(state) == TW.Active && c == TW.StartTaskRun
                                       then old(worker.Abs()).armed[id := (now + old(timeout)) % TS.CInts.U64]
                                       else old(worker.Abs()).armed
    {
      hide Worker.Valid, Worker.Abs, Worker.Foot, Worker.Armed;
      Alone();
      match state {
        case Idle =>
          if c != TW.StartAction {
            return false;
          }
          state := TW.Active;
          ok := worker.Execute(startTask);
        case Active =>
          if c == TW.StartTaskRun {
            if timeout < 0 {
              return false;
            }
            ok := worker.AddTimer(timeout, hndl, now);
            Alone();
            timeout := -1;
          } else if c == TW.Expired {
            if timeout != -1 {
              return false;
            }
            ok := Raise(TW.TimeoutNote);
          } else {
            return false;
          }
        case Stopping => return false;
      }
    }

    method Shutdown(c: TW.Cause) returns (ok: bool)
      requires Valid()
      modifies this, worker.Foot()
      ensures ok <==> TW.Shutdown(old(Both()), id, c).Ok?
      ensures ok ==> Valid() && TW.Shutdown(old(Both()), id, c) == Ok(Both())
      ensures ok <==> if c == TW.StopAction then TW.StopTask(id) !in old(worker.Abs()).shared + old(worker.Abs()).local
                      else old(state) == TW.Stopping && (c == TW.StopTaskRun ==> TW.StoppedNote !in old(notes))
      ensures ok ==> worker.Abs().armed == if c == TW.StopTaskRun then old(worker.Abs()).armed - {id}
                                           else old(worker.Abs()).armed
    {
      hide Worker.Valid, Worker.Abs, Worker.Foot, Worker.Armed;
      Alone();
      if c == TW.StopAction {
        state := TW.Stopping;
        ok := worker.Execute(stopTask);
        return;
      }
      if state == TW.Stopping {
        if c != TW.StopTaskRun {
          return true;
        }
        worker.RmTimer(hndl);
        Alone();
        state := TW.Idle;
        fsm := TW.FsmIdle;
        ok := Raise(TW.StoppedNote);
        return;
      }
      return false;
    }

    /** A start task arms the running timer, a stop task takes the stopping one out, and
        nothing else changes a deadline. */
    ghost predicate Deadlines(was: TW.Pair, c: TW.Cause, now: int)
      reads worker, worker.Foot()
    {
      worker.Abs().armed == if was.x.fsm == TW.FsmStopping then
                          if c == TW.StopTaskRun then was.w.armed - {id} else was.w.armed
                        else if was.x.state == TW.Active && c == TW.StartTaskRun then
                          was.w.armed[id := (now + was.x.timeout) % TS.CInts.U64]
                        else was.w.armed
    }

    method Feed(c: TW.Cause, now: int) returns (ok: bool)
      requires Valid()
      modifies this, worker.Foot()
      ensures ok <==> TW.Feed(old(Both()), id, c, now).Ok?
      ensures ok ==> Valid() && TW.Feed(old(Both()), id, c, now) == Ok(Both())
      ensures ok ==> Deadlines(old(Both()), c, now)
    {
      hide Worker.Valid, Worker.Abs, Worker.Foot, TW.Handler, TW.Shutdown;
      if fsm != TW.FsmStopping {
        ok := Handler(c, now);
      } else {
        ok := Shutdown(c);
      }
    }

    method Start(timeout: int) returns (ok: bool)
      requires Valid()
      modifies this, worker.Foot()
      ensures ok <==> TW.Start(old(Both()), id, timeout).Ok?
      ensures ok ==> Valid() && TW.Start(old(Both()), id, timeout) == Ok(Both())
      ensures ok ==> this.timeout == timeout && fsm == TW.FsmActive && state == TW.Active && notes == old(notes)
      ensures ok ==>
                worker.Abs() == old(var w := worker.Abs(); w.(shared := w.shared + [TW.StartTask(id)], efd := true))
    {
      hide Worker.Valid, Worker.Abs, Worker.Foot, Worker.Armed;
      Alone();
      if timeout < 0 || fsm != TW.FsmIdle {
        return false;
      }
      ghost var p := Both();
      this.timeout := timeout;
      assert Both() == p.(x := p.x.(timeout := timeout));
      ok := Handler(TW.StartAction, 0);
      Alone();
      fsm := TW.FsmActive;
    }

    method Stop() returns (ok: bool)
      requires Valid()
      modifies this, worker.Foot()
      ensures ok <==> TW.Stop(old(Both()), id).Ok?
      ensures ok ==> Valid() && TW.Stop(old(Both()), id) == Ok(Both())
      ensures old(fsm) != TW.FsmActive ==> ok && Both() == old(Both())
      ensures ok && old(fsm) == TW.FsmActive ==>
                && Abs() == old(Abs()).(fsm := TW.FsmStopping, state := TW.Stopping)
                && worker.Abs() == old(var w := worker.Abs(); w.(shared := w.shared + [TW.StopTask(id)], efd := true))
    {
      hide Worker.Valid, Worker.Abs, Worker.Foot, Worker.Armed;
      Alone();
      if fsm != TW.FsmActive {
        return true;
      }
      ghost var p := Both();
      fsm := TW.FsmStopping;
      assert Both() == p.(x := p.x.(fsm := TW.FsmStopping));
      ok := Shutdown(TW.StopAction);
    }

    /** The checks made when a timer is dropped: idle, its handle in no timer set and
        its tasks on no queue. */
    method Term() returns (ok: bool)
      requires Valid()
      ensures ok <==> TW.Term(Both(), id).Ok?
      ensures ok <==>
                && state == TW.Idle && id !in worker.Armed()
                && TW.StartTask(id) !in worker.Abs().shared + worker.Abs().local
                && TW.StopTask(id) !in worker.Abs().shared + worker.Abs().local
    {
      hide Owners, Q.Queue.Valid, TS.TimerSet.Valid;
      worker.HandleIs(hndl);
      worker.QueuedIs(startTask);
      worker.QueuedIs(stopTask);
      ok := state == TW.Idle && !hndl.IsInList() && !stopTask.InQueue() && !startTask.InQueue();
    }
  }

  /** The thread feeds the task it holds to the timer of the task. */
  method RunTask(w: Worker, x: Timer, now: int) returns (ok: bool)
    requires x.Valid() && x.worker == w && w.hand.Running? && w.hand.task.t == x.id
    modifies x, w.Foot()
    ensures var p := old(x.Both());
            var r := TW.Feed(p.(w := p.w.(hand := TW.Nothing)), x.id, TW.CauseOf(old(w.hand.task)), now);
            (ok <==> r.Ok?) && (ok ==> x.Valid() && r == Ok(x.Both()))
    ensures ok ==> x.Deadlines(old(x.Both()), TW.CauseOf(old(w.hand.task)), now)
  {
    hide TW.Feed, Worker.Foot, Worker.Abs, Worker.Valid;
    ghost var p := x.Both();
    x.Alone();
    var task := w.hand.task;
    w.Hold(TW.Nothing);
    assert x.Both() == p.(w := p.w.(hand := TW.Nothing));
    x.Alone();
    ok := x.Feed(TW.CauseOf(task), now);
  }

  /** The thread tells the timer whose handle it popped from the timer set. */
  method TellExpired(w: Worker, x: Timer, now: int) returns (ok: bool)
    requires x.Valid() && x.worker == w && w.hand == TW.Expiring(x.id)
    modifies x, w.Foot()
    ensures var p := old(x.Both());
            var r := TW.Feed(p.(w := p.w.(hand := TW.Nothing)), x.id, TW.Expired, now);
            (ok <==> r.Ok?) && (ok ==> x.Valid() && r == Ok(x.Both()) && w.Abs().armed == old(w.Abs()).armed)
  {
    hide TW.Feed, Worker.Foot, Worker.Abs, Worker.Valid;
    ghost var p := x.Both();
    x.Alone();
    w.Hold(TW.Nothing);
    assert x.Both() == p.(w := p.w.(hand := TW.Nothing));
    x.Alone();
    ok := x.Feed(TW.Expired, now);
  }
}
