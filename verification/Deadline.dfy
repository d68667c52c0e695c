/** The blocking loops of nn_sock_send and nn_sock_recv: attempts, waits, and the
    deadline fixed on entry. The two loops are the same on their own timeout option,
    descriptor and flag. */
module Deadlines {
  import opened CInts

  /** What the protocol answers to an attempt. */
  datatype Answer = Done | Again | Failed(rc: int)

  datatype Wake = Ready | TimedOut | Interrupted | BadDescriptor

  /** One turn of the loop as its surroundings shape it: whether the socket still
      takes calls, the protocol's answer, when the wait begins and ends and why,
      whether the descriptor is signalled right after, and the timeout option and
      the clock as read then. */
  datatype Turn = Turn(usable: bool, answer: Answer, began: nat, woke: nat, wake: Wake,
                       signalled: bool, option: int, now: nat)

  /** A wait: the clock reading its timeout was computed from, and its course. */
  datatype Wait = Wait(read: nat, timeout: int, began: nat, woke: nat)

  datatype Ending =
    | Success | Error(rc: int) | Closed | WouldBlock | Late | Signal | Gone
    | Unfinished

  datatype Trace = Trace(ending: Ending, waits: seq<Wait>, flagged: bool)

  /** The remaining time: an unsigned difference cut to an int. */
  function Remaining(deadline: nat, now: nat): int
    requires deadline < U64
  {
    ToInt(if now > deadline then 0 else deadline - now)
  }

  /** Whether a turn gets as far as waiting. */
  predicate Waits(t: Turn, dontwait: bool)
  {
    t.usable && t.answer == Again && !dontwait
  }

  /** How a turn ends the call; Unfinished if the loop goes on. */
  function EndOf(t: Turn, dontwait: bool): Ending
  {
    if !t.usable then Closed
    else match t.answer
      case Done => Success
      case Failed(rc) => Error(rc)
      case Again =>
        if dontwait then WouldBlock
        else match t.wake
          case TimedOut => Late
          case Interrupted => Signal
          case BadDescriptor => Gone
          case Ready => Unfinished
  }

  /** What the loop does from a turn on. */
  function Loop(turns: seq<Turn>, dontwait: bool, deadline: nat, read: nat, timeout: int, flag: bool): Trace
    requires deadline < U64
    decreases |turns|
  {
    if turns == [] then Trace(Unfinished, [], flag)
    else
      var t := turns[0];
      var waits := if Waits(t, dontwait) then [Wait(read, timeout, t.began, t.woke)] else [];
      if EndOf(t, dontwait) != Unfinished then Trace(EndOf(t, dontwait), waits, flag)
      else
        var rest := Loop(turns[1..], dontwait, deadline,
                         if t.option >= 0 then t.now else read,
                         if t.option >= 0 then Remaining(deadline, t.now) else timeout,
                         flag || t.signalled);
        Trace(rest.ending, waits + rest.waits, rest.flagged)
  }

  /** The deadline fixed on entry, in 64-bit arithmetic. */
  function DeadlineOf(start: nat, option: int): (d: nat)
    ensures d < U64
    ensures option >= 0 && start + option < U64 ==> d == start + option
  {
    if option < 0 then U64 - 1 else (start + option) % U64
  }

  function After(waits: seq<Wait>, rest: Trace): Trace
  {
    Trace(rest.ending, waits + rest.waits, rest.flagged)
  }

  /** One turn of the loop, behind the waits there already were. */
  lemma OneTurn(turns: seq<Turn>, i: nat, dontwait: bool, deadline: nat, read: nat, timeout: int, flag: bool,
                waits: seq<Wait>)
    requires deadline < U64 && i < |turns|
    ensures var t := turns[i];
            var now := waits + if Waits(t, dontwait) then [Wait(read, timeout, t.began, t.woke)] else [];
            After(waits, Loop(turns[i..], dontwait, deadline, read, timeout, flag)) ==
              if EndOf(t, dontwait) != Unfinished then Trace(EndOf(t, dontwait), now, flag)
              else After(now, Loop(turns[i + 1..], dontwait, deadline, if t.option >= 0 then t.now else read,
                                   if t.option >= 0 then Remaining(deadline, t.now) else timeout, flag || t.signalled))
  {
  }

  /** The protocol has nothing yet, and the wait ends because it may have now. */
  predicate GoesOn(t: Turn, dontwait: bool)
  {
    t.usable && t.answer == Again && !dontwait && t.wake == Ready
  }

  /** What the caller is told at the turn that ends the call. */
  predicate Decides(t: Turn, dontwait: bool, e: Ending)
  {
    && (e == Closed <==> !t.usable)
    && (e == Success <==> t.usable && t.answer == Done)
    && (e.Error? <==> t.usable && t.answer.Failed?) && (e.Error? ==> e.rc == t.answer.rc)
    && (e == WouldBlock <==> t.usable && t.answer == Again && dontwait)
    && (e == Late <==> t.usable && t.answer == Again && !dontwait && t.wake == TimedOut)
    && (e == Signal <==> t.usable && t.answer == Again && !dontwait && t.wake == Interrupted)
    && (e == Gone <==> t.usable && t.answer == Again && !dontwait && t.wake == BadDescriptor)
  }

  /** n turns go on; the loop ends at the next one if there is one. */
  ghost predicate EndsAt(turns: seq<Turn>, dontwait: bool, flag: bool, n: nat, r: Trace)
  {
    && n <= |turns| && (forall j | 0 <= j < n :: GoesOn(turns[j], dontwait))
    && (r.ending == Unfinished <==> n == |turns|)
    && (n < |turns| ==> !GoesOn(turns[n], dontwait) && Decides(turns[n], dontwait, r.ending))
    && (r.flagged <==> flag || exists j :: 0 <= j < n && turns[j].signalled)
    && |r.waits| == n + if r.ending in {Late, Signal, Gone} then 1 else 0
  }

  lemma {:induction false} LoopEnds(turns: seq<Turn>, dontwait: bool, deadline: nat, read: nat, timeout: int,
                                    flag: bool)
    returns (n: nat)
    requires deadline < U64
    ensures EndsAt(turns, dontwait, flag, n, Loop(turns, dontwait, deadline, read, timeout, flag))
    decreases |turns|
  {
    if turns == [] || EndOf(turns[0], dontwait) != Unfinished {
      n := 0;
    } else {
      var t := turns[0];
      var r := Loop(turns, dontwait, deadline, read, timeout, flag);
      var rest := Loop(turns[1..], dontwait, deadline, if t.option >= 0 then t.now else read,
                       if t.option >= 0 then Remaining(deadline, t.now) else timeout, flag || t.signalled);
      var k := LoopEnds(turns[1..], dontwait, deadline, if t.option >= 0 then t.now else read,
                        if t.option >= 0 then Remaining(deadline, t.now) else timeout, flag || t.signalled);
      assert r.ending == rest.ending && r.flagged == rest.flagged && |r.waits| == 1 + |rest.waits|;
      hide Loop, Remaining;
      OneMore(turns, dontwait, flag, k, r, rest);
      n := k + 1;
    }
  }

  /** One turn that goes on in front of the others. */
  lemma OneMore(turns: seq<Turn>, dontwait: bool, flag: bool, k: nat, r: Trace, rest: Trace)
    requires turns != [] && GoesOn(turns[0], dontwait)
    requires EndsAt(turns[1..], dontwait, flag || turns[0].signalled, k, rest)
    requires r.ending == rest.ending && r.flagged == rest.flagged && |r.waits| == 1 + |rest.waits|
    ensures EndsAt(turns, dontwait, flag, k + 1, r)
  {
    assert forall j | 0 <= j < k :: turns[1..][j] == turns[j + 1];
    if j :| 0 <= j < k && turns[1..][j].signalled {
      assert turns[j + 1].signalled;
    }
  }

  /** `n` turns go on; the call ends at the next one if there is one. */
  method Attempt(turns: seq<Turn>, dontwait: bool, start: nat, option: int, flag0: bool)
    returns (r: Trace, ghost n: nat)
    requires option < I32
    ensures r == Loop(turns, dontwait, DeadlineOf(start, option), start, if option < 0 then -1 else option, flag0)
    ensures EndsAt(turns, dontwait, flag0, n, r)
  {
    hide Loop, ToInt, EndsAt;
    var deadline, timeout := U64 - 1, -1;
    if option >= 0 {
      deadline := (start + option) % U64;
      timeout := option;
    }
    var waits, flag, read, i := [], flag0, start, 0;
    ghost var whole := Loop(turns, dontwait, deadline, read, timeout, flag);
    n := LoopEnds(turns, dontwait, deadline, read, timeout, flag);
    assert turns[0..] == turns;
    while i < |turns|
      invariant 0 <= i <= |turns|
      invariant whole == After(waits, Loop(turns[i..], dontwait, deadline, read, timeout, flag))
    {
      var t := turns[i];
      OneTurn(turns, i, dontwait, deadline, read, timeout, flag, waits);
      if !t.usable {
        return Trace(Closed, waits, flag), n;
      }
      if t.answer == Done {
        return Trace(Success, waits, flag), n;
      }
      if t.answer != Again {
        return Trace(Error(t.answer.rc), waits, flag), n;
      }
      if dontwait {
        return Trace(WouldBlock, waits, flag), n;
      }
      waits := waits + [Wait(read, timeout, t.began, t.woke)];
      match t.wake {
        case TimedOut => return Trace(Late, waits, flag), n;
        case Interrupted => return Trace(Signal, waits, flag), n;
        case BadDescriptor => return Trace(Gone, waits, flag), n;
        case Ready =>
      }
      if t.signalled {
        flag := true;
      }
      if t.option >= 0 {
        read := t.now;
        timeout := ToInt(if t.now > deadline then 0 else deadline - t.now);
      }
      i := i + 1;
    }
    NoTurns(dontwait, deadline, read, timeout, flag);
    assert turns[i..] == [];
    return Trace(Unfinished, waits, flag), n;
  }

  lemma NoTurns(dontwait: bool, deadline: nat, read: nat, timeout: int, flag: bool)
    requires deadline < U64
    ensures Loop([], dontwait, deadline, read, timeout, flag) == Trace(Unfinished, [], flag)
  {
  }

  // ---------- what the surroundings keep ----------

  /** The clock never goes back. */
  predicate Monotone(turns: seq<Turn>, from: nat)
    decreases |turns|
  {
    turns == [] ||
    (from <= turns[0].began <= turns[0].woke <= turns[0].now && Monotone(turns[1..], turns[0].now))
  }

  function Max(a: int, b: int): int
  {
    if a > b then a else b
  }

  // ---------- the deadline ----------

  /** The cast of the remaining time loses nothing exactly while it is under 2^31. */
  lemma CastIsExact(deadline: nat, now: nat)
    requires deadline < U64
    ensures var rest := Max(deadline - now, 0);
            Remaining(deadline, now) == rest <==> rest < I32
  {
  }

  /** Every wait, counted from the clock reading behind it, runs exactly to the
      deadline, or not at all once it has passed; this holds however the option
      changes meanwhile. */
  lemma {:induction false} WaitsRunToDeadline(turns: seq<Turn>, dontwait: bool, deadline: nat, read: nat,
                                               timeout: int, flag: bool, from: nat)
    requires deadline < U64 && read <= from && Monotone(turns, from)
    requires deadline - read < I32 && timeout == Max(deadline - read, 0)
    ensures forall w | w in Loop(turns, dontwait, deadline, read, timeout, flag).waits ::
              w.timeout >= 0 && w.read + w.timeout == Max(w.read, deadline) && read <= w.read <= w.began <= w.woke
    decreases |turns|
  {
    if turns != [] && EndOf(turns[0], dontwait) == Unfinished {
      var t := turns[0];
      CastIsExact(deadline, t.now);
      if t.option >= 0 {
        WaitsRunToDeadline(turns[1..], dontwait, deadline, t.now, Remaining(deadline, t.now),
                           flag || t.signalled, t.now);
      } else {
        WaitsRunToDeadline(turns[1..], dontwait, deadline, read, timeout, flag || t.signalled, t.now);
      }
    }
  }

  /** A call with a non-negative timeout: every wait is computed to end at the
      deadline fixed on entry; measured from when it really begins it ends no later
      than the deadline exactly when it begins at the reading and not past the
      deadline, and otherwise overruns by the time between the two. */
  lemma EveryWaitMeetsDeadline(turns: seq<Turn>, dontwait: bool, start: nat, option: int, flag: bool)
    requires 0 <= option < I32 && start + option < U64 && Monotone(turns, start)
    ensures forall w | w in Loop(turns, dontwait, DeadlineOf(start, option), start, option, flag).waits ::
              && w.timeout >= 0
              && w.read + w.timeout == Max(w.read, start + option)
              && (w.began + w.timeout <= start + option <==> w.began == w.read <= start + option)
              && w.began + w.timeout - Max(w.read, start + option) == w.began - w.read
  {
    WaitsRunToDeadline(turns, dontwait, start + option, start, option, flag, start);
  }

  /** The clock reading behind the i-th wait: the last one made with the option on. */
  function ReadingBefore(turns: seq<Turn>, start: nat, i: nat): nat
    requires i <= |turns|
  {
    if i == 0 then start
    else if turns[i - 1].option >= 0 then turns[i - 1].now
    else ReadingBefore(turns, start, i - 1)
  }

  lemma {:induction false} ReadingShifts(turns: seq<Turn>, start: nat, i: nat)
    requires 0 < i <= |turns|
    ensures ReadingBefore(turns, start, i) ==
            ReadingBefore(turns[1..], if turns[0].option >= 0 then turns[0].now else start, i - 1)
  {
    if i > 1 {
      ReadingShifts(turns, start, i - 1);
    }
  }

  /** The i-th wait belongs to the i-th turn, and while the option is switched off
      the readings stop: the wait is timed from the last one made before. */
  lemma {:induction false} WaitsAreTimedFrom(turns: seq<Turn>, dontwait: bool, deadline: nat, read: nat,
                                             timeout: int, flag: bool, i: nat)
    requires deadline < U64
    requires i < |Loop(turns, dontwait, deadline, read, timeout, flag).waits|
    ensures i < |turns|
    ensures var w := Loop(turns, dontwait, deadline, read, timeout, flag).waits[i];
            w.read == ReadingBefore(turns, read, i) && w.began == turns[i].began && w.woke == turns[i].woke
    decreases |turns|
  {
    var t := turns[0];
    if i > 0 {
      WaitsAreTimedFrom(turns[1..], dontwait, deadline, if t.option >= 0 then t.now else read,
        if t.option >= 0 then Remaining(deadline, t.now) else timeout, flag || t.signalled, i - 1);
      ReadingShifts(turns, read, i);
    }
  }

  /** The option was on after one of the first i turns. */
  predicate OnBefore(turns: seq<Turn>, i: nat)
    requires i <= |turns|
  {
    exists j :: 0 <= j < i && turns[j].option >= 0
  }

  /** How the timeout of the i-th wait is computed. */
  lemma {:induction false} TimeoutIs(turns: seq<Turn>, dontwait: bool, deadline: nat, read: nat, timeout: int,
                                     flag: bool, i: nat)
    requires deadline < U64
    requires i < |Loop(turns, dontwait, deadline, read, timeout, flag).waits|
    ensures i < |turns|
    ensures Loop(turns, dontwait, deadline, read, timeout, flag).waits[i].timeout ==
            if OnBefore(turns, i) then Remaining(deadline, ReadingBefore(turns, read, i)) else timeout
    decreases |turns|
  {
    var t := turns[0];
    if i > 0 {
      TimeoutIs(turns[1..], dontwait, deadline, if t.option >= 0 then t.now else read,
        if t.option >= 0 then Remaining(deadline, t.now) else timeout, flag || t.signalled, i - 1);
      ReadingShifts(turns, read, i);
      OnShifts(turns, i);
      if !OnBefore(turns[1..], i - 1) {
        OffSince(turns[1..], if t.option >= 0 then t.now else read, i - 1);
      }
    }
  }

  lemma OnShifts(turns: seq<Turn>, i: nat)
    requires 0 < i <= |turns|
    ensures OnBefore(turns, i) <==> turns[0].option >= 0 || OnBefore(turns[1..], i - 1)
  {
    if OnBefore(turns[1..], i - 1) {
      var j :| 0 <= j < i - 1 && turns[1..][j].option >= 0;
      assert turns[j + 1].option >= 0;
    }
    if OnBefore(turns, i) && turns[0].option < 0 {
      var j :| 0 <= j < i && turns[j].option >= 0;
      assert turns[1..][j - 1].option >= 0;
    }
  }

  lemma {:induction false} OffSince(turns: seq<Turn>, read: nat, i: nat)
    requires i <= |turns| && !OnBefore(turns, i)
    ensures ReadingBefore(turns, read, i) == read
  {
    if i > 0 {
      OffSince(turns, read, i - 1);
    }
  }

  /** What is left of forever once it is cut to an int: the lower half of the clock,
      inverted. */
  function CutForever(now: nat): int
  {
    var low := now % U32;
    if low < I32 then -1 - low else U32 - 1 - low
  }

  lemma ForeverIsCut(now: nat)
    requires now < U64
    ensures Remaining(U64 - 1, now) == CutForever(now)
  {
    var rest := U64 - 1 - now;
    assert rest == U32 * (U32 - 1 - now / U32) + (U32 - 1 - now % U32);
    assert rest % U32 == U32 - 1 - now % U32;
  }

  /** A call entered with the option off waits without limit until the option is switched
      on.  Then its deadline is the end of time, and the int that is waited for depends on
      the clock alone: negative, that is without limit again, while bit 31 of the last
      reading is clear, and otherwise a time that has nothing to do with the option. */
  lemma SwitchedOnLate(turns: seq<Turn>, dontwait: bool, start: nat, option: int, flag: bool, i: nat)
    requires option < 0 && start < U64 && forall t | t in turns :: t.now < U64
    requires i < |Loop(turns, dontwait, DeadlineOf(start, option), start, -1, flag).waits|
    ensures i < |turns|
    ensures var w := Loop(turns, dontwait, DeadlineOf(start, option), start, -1, flag).waits[i];
            var reading := ReadingBefore(turns, start, i);
            && w.timeout == (if OnBefore(turns, i) then CutForever(reading) else -1)
            && (w.timeout >= 0 <==> OnBefore(turns, i) && reading % U32 >= I32)
  {
    hide Loop;
    TimeoutIs(turns, dontwait, U64 - 1, start, -1, flag, i);
    ReadingInRange(turns, start, i);
    ForeverIsCut(ReadingBefore(turns, start, i));
  }

  lemma {:induction false} ReadingInRange(turns: seq<Turn>, start: nat, i: nat)
    requires start < U64 && i <= |turns| && forall t | t in turns :: t.now < U64
    ensures ReadingBefore(turns, start, i) < U64
  {
    if i > 0 {
      ReadingInRange(turns, start, i - 1);
    }
  }

  /** When a wait overruns the deadline: exactly when time has passed since the last
      reading made with the option on, or the deadline had passed by then. */
  lemma OverrunIsExact(turns: seq<Turn>, dontwait: bool, start: nat, option: int, flag: bool, i: nat)
    requires 0 <= option < I32 && start + option < U64 && Monotone(turns, start)
    requires i < |Loop(turns, dontwait, DeadlineOf(start, option), start, option, flag).waits|
    ensures i < |turns|
    ensures var w := Loop(turns, dontwait, DeadlineOf(start, option), start, option, flag).waits[i];
            var reading := ReadingBefore(turns, start, i);
            w.began + w.timeout > start + option <==> turns[i].began > reading || reading > start + option
  {
    hide Loop, Monotone, ReadingBefore;
    assert DeadlineOf(start, option) == start + option;
    WaitsAreTimedFrom(turns, dontwait, start + option, start, option, flag, i);
    WaitsRunToDeadline(turns, dontwait, start + option, start, option, flag, start);
    var ws := Loop(turns, dontwait, start + option, start, option, flag).waits;
    assert ws[i] in ws;
  }

  lemma LateMeansWaited(turns: seq<Turn>, dontwait: bool, deadline: nat, read: nat, timeout: int, flag: bool)
    requires deadline < U64
    ensures var r := Loop(turns, dontwait, deadline, read, timeout, flag);
            r.ending == Late ==> r.waits != []
    decreases |turns|
  {
  }

  predicate TimeUp(w: Wait)
  {
    w.woke >= w.began + w.timeout
  }

  /** A wait that times out has lasted its time; then -ETIMEDOUT is never returned
      before the deadline. */
  lemma NeverEarly(turns: seq<Turn>, dontwait: bool, start: nat, option: int, flag: bool)
    requires 0 <= option < I32 && start + option < U64 && Monotone(turns, start)
    requires var r := Loop(turns, dontwait, DeadlineOf(start, option), start, option, flag);
             r.ending == Late && (r.waits == [] || TimeUp(r.waits[|r.waits| - 1]))
    ensures var r := Loop(turns, dontwait, DeadlineOf(start, option), start, option, flag);
            r.waits != [] && r.waits[|r.waits| - 1].woke >= start + option
  {
    hide Loop;
    var r := Loop(turns, dontwait, DeadlineOf(start, option), start, option, flag);
    WaitsRunToDeadline(turns, dontwait, start + option, start, option, flag, start);
    LateMeansWaited(turns, dontwait, start + option, start, option, flag);
    assert r.waits[|r.waits| - 1] in r.waits;
  }
}
