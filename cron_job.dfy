/**
 * CronJobRepository.ExecuteAsync: the background loop that, once a second,
 * has the token tables swept of expired rows and, while the time of day read
 * at the top of the pass lies in [00:00, 06:00), waits a further minute and
 * has the abandoned cart rows swept too. It stops at the loop head once the
 * host has asked it to, and a failed sweep or an interrupted delay ends it by
 * an exception.
 *
 * Time is a simulated clock in milliseconds; the local time of day is the
 * clock modulo one day. Sweeps take no time.
 */
module CronJob {
  import opened Common

  const SecondMs: int := 1000
  const MinuteMs: int := 60 * SecondMs
  const HourMs: int := 60 * MinuteMs
  const DayMs: int := 24 * HourMs

  /** cartChronStartTime and cartChronEndTime. */
  const CartWindowStart: int := 0 * HourMs
  const CartWindowEnd: int := 6 * HourMs

  /** DateTime.Now.TimeOfDay */
  function TimeOfDay(t: int): (d: int)
    ensures 0 <= d < DayMs
    ensures (t - d) % DayMs == 0
  {
    t % DayMs
  }

  predicate InCartWindow(timeOfDay: int)
  {
    CartWindowStart <= timeOfDay < CartWindowEnd
  }

  /** A sweep that completed, and the instant it ran. */
  datatype Event = TokenSweep(at: int) | CartSweep(at: int)

  /** How the loop ended: it saw the cancellation at its head and returned,
      a delay was cancelled (TaskCanceledException, logged and rethrown), or
      a sweep threw (logged and rethrown). */
  datatype Ending = Stopped | Canceled | Failed(failure: Failure)

  datatype Log = Log(trace: seq<Event>, ending: Ending)

  /**
   * What the loop sees of the world: the instant the host requests
   * cancellation, and whether SetTokenSchedularAsync / SetSchedularAsync
   * throw when called at a given instant.
   */
  datatype Host = Host(cancelAt: int, tokenSweep: int -> Option<Failure>, cartSweep: int -> Option<Failure>)

  /** Task.Delay(d, stoppingToken) started at t runs to its end unless the
      cancellation comes first. */
  predicate DelayCompletes(h: Host, t: int, d: int)
  {
    h.cancelAt >= t + d
  }

  /** The outcome of one pass of the loop body. */
  datatype Step = Continue(events: seq<Event>, next: int) | Halt(events: seq<Event>, ending: Ending)

  /** One pass of the loop body, entered at instant t. */
  function Iteration(h: Host, t: int): (s: Step)
    ensures s.Continue? ==> s.next > t
  {
    var currentTime := TimeOfDay(t);
    if !DelayCompletes(h, t, SecondMs) then Halt([], Canceled)
    else
      var t1 := t + SecondMs;
      if h.tokenSweep(t1).Some? then Halt([], Failed(h.tokenSweep(t1).value))
      else if !InCartWindow(currentTime) then Continue([TokenSweep(t1)], t1)
      else if !DelayCompletes(h, t1, MinuteMs) then Halt([TokenSweep(t1)], Canceled)
      else
        var t2 := t1 + MinuteMs;
        if h.cartSweep(t2).Some? then Halt([TokenSweep(t1)], Failed(h.cartSweep(t2).value))
        else Continue([TokenSweep(t1), CartSweep(t2)], t2)
  }

  /** The sweeps of a pass begun at t that ran to its end at `next`: a token
      sweep a second later, then, when t was in the window, a cart sweep a
      minute after that. */
  predicate FullPass(pass: seq<Event>, t: int, next: int)
  {
    if InCartWindow(TimeOfDay(t))
    then pass == [TokenSweep(t + SecondMs), CartSweep(t + SecondMs + MinuteMs)] && next == t + SecondMs + MinuteMs
    else pass == [TokenSweep(t + SecondMs)] && next == t + SecondMs
  }

  /** The shape of one pass: a pass that goes on is a full pass, and one that
      stops keeps the part of a full pass that completed. */
  lemma IterationShape(h: Host, t: int)
    ensures var s := Iteration(h, t);
            && (s.Continue? ==> FullPass(s.events, t, s.next))
            && (s.Halt? ==> s.events == [] || (s.events == [TokenSweep(t + SecondMs)] && InCartWindow(TimeOfDay(t))))
            // nothing runs after the cancellation
            && (forall i | 0 <= i < |s.events| :: t < s.events[i].at <= h.cancelAt)
  {
  }

  /** The whole run of the loop from instant t. */
  function Run(h: Host, t: int): Log
    decreases h.cancelAt - t
  {
    if h.cancelAt <= t then Log([], Stopped)
    else
      match Iteration(h, t)
      case Halt(events, ending) => Log(events, ending)
      case Continue(events, next) =>
        var rest := Run(h, next);
        Log(events + rest.trace, rest.ending)
  }

  /** One pass of the run, unfolded. */
  lemma RunStep(h: Host, t: int)
    requires h.cancelAt > t
    ensures Iteration(h, t).Halt? ==> Run(h, t) == Log(Iteration(h, t).events, Iteration(h, t).ending)
    ensures Iteration(h, t).Continue? ==>
              Run(h, t) == Log(Iteration(h, t).events + Run(h, Iteration(h, t).next).trace, Run(h, Iteration(h, t).next).ending)
  {
  }

  /** The first sweep is a token sweep a second after the start. */
  predicate StartsWithTokenSweep(trace: seq<Event>, t: int)
  {
    trace != [] ==> trace[0] == TokenSweep(t + SecondMs)
  }

  /** A token sweep at x is followed by a cart sweep a minute later when the
      time of day at x - 1 s (the top of its pass) was in the window, and by
      the next pass's token sweep a second later otherwise. */
  predicate AfterTokenSweep(trace: seq<Event>)
  {
    forall i | 0 <= i < |trace| - 1 && trace[i].TokenSweep? ::
      trace[i + 1] == if InCartWindow(TimeOfDay(trace[i].at - SecondMs))
                      then CartSweep(trace[i].at + MinuteMs)
                      else TokenSweep(trace[i].at + SecondMs)
  }

  /** A cart sweep comes a minute after the token sweep of a pass begun in
      the window. */
  predicate CartSweepsInWindow(trace: seq<Event>)
  {
    forall i | 0 <= i < |trace| && trace[i].CartSweep? ::
      0 < i && trace[i - 1] == TokenSweep(trace[i].at - MinuteMs)
      && InCartWindow(TimeOfDay(trace[i].at - MinuteMs - SecondMs))
  }

  /** A cart sweep is followed by the next pass's token sweep a second later. */
  predicate AfterCartSweep(trace: seq<Event>)
  {
    forall i | 0 <= i < |trace| - 1 && trace[i].CartSweep? ::
      trace[i + 1] == TokenSweep(trace[i].at + SecondMs)
  }

  /** The sweep schedule of the loop. */
  predicate Schedule(trace: seq<Event>, t: int)
  {
    StartsWithTokenSweep(trace, t) && AfterTokenSweep(trace) && CartSweepsInWindow(trace) && AfterCartSweep(trace)
  }

  lemma RunStartsWithTokenSweep(h: Host, t: int)
    ensures StartsWithTokenSweep(Run(h, t).trace, t)
  {
    if h.cancelAt > t {
      IterationShape(h, t);
      RunStep(h, t);
    }
  }

  lemma AfterTokenSweepAppend(pass: seq<Event>, rest: seq<Event>, t: int, next: int)
    requires FullPass(pass, t, next)
    requires AfterTokenSweep(rest) && StartsWithTokenSweep(rest, next)
    ensures AfterTokenSweep(pass + rest)
  {
    var trace := pass + rest;
    var n := |pass|;
    forall i | 0 <= i < |trace| - 1 && trace[i].TokenSweep?
      ensures trace[i + 1] == if InCartWindow(TimeOfDay(trace[i].at - SecondMs))
                              then CartSweep(trace[i].at + MinuteMs)
                              else TokenSweep(trace[i].at + SecondMs)
    {
      if i >= n {
        assert trace[i] == rest[i - n] && trace[i + 1] == rest[i - n + 1];
      } else if n == 1 {
        assert trace[1] == rest[0];
      }
    }
  }

  lemma CartSweepsInWindowAppend(pass: seq<Event>, rest: seq<Event>, t: int, next: int)
    requires FullPass(pass, t, next)
    requires CartSweepsInWindow(rest) && StartsWithTokenSweep(rest, next)
    ensures CartSweepsInWindow(pass + rest)
  {
    var trace := pass + rest;
    var n := |pass|;
    forall i | 0 <= i < |trace| && trace[i].CartSweep?
      ensures 0 < i && trace[i - 1] == TokenSweep(trace[i].at - MinuteMs)
              && InCartWindow(TimeOfDay(trace[i].at - MinuteMs - SecondMs))
    {
      if i > n {
        assert trace[i] == rest[i - n] && trace[i - 1] == rest[i - n - 1];
      }
    }
  }

  lemma AfterCartSweepAppend(pass: seq<Event>, rest: seq<Event>, t: int, next: int)
    requires FullPass(pass, t, next)
    requires AfterCartSweep(rest) && StartsWithTokenSweep(rest, next)
    ensures AfterCartSweep(pass + rest)
  {
    var trace := pass + rest;
    var n := |pass|;
    forall i | 0 <= i < |trace| - 1 && trace[i].CartSweep?
      ensures trace[i + 1] == TokenSweep(trace[i].at + SecondMs)
    {
      if i >= n {
        assert trace[i] == rest[i - n] && trace[i + 1] == rest[i - n + 1];
      } else {
        assert trace[i + 1] == rest[0];
      }
    }
  }

  lemma {:induction false} RunAfterTokenSweep(h: Host, t: int)
    ensures AfterTokenSweep(Run(h, t).trace)
    decreases h.cancelAt - t
  {
    if h.cancelAt > t {
      var s := Iteration(h, t);
      IterationShape(h, t);
      RunStep(h, t);
      if s.Continue? {
        RunAfterTokenSweep(h, s.next);
        RunStartsWithTokenSweep(h, s.next);
        AfterTokenSweepAppend(s.events, Run(h, s.next).trace, t, s.next);
      }
    }
  }

  lemma {:induction false} RunCartSweepsInWindow(h: Host, t: int)
    ensures CartSweepsInWindow(Run(h, t).trace)
    decreases h.cancelAt - t
  {
    if h.cancelAt > t {
      var s := Iteration(h, t);
      IterationShape(h, t);
      RunStep(h, t);
      if s.Continue? {
        RunCartSweepsInWindow(h, s.next);
        RunStartsWithTokenSweep(h, s.next);
        CartSweepsInWindowAppend(s.events, Run(h, s.next).trace, t, s.next);
      }
    }
  }

  lemma {:induction false} RunAfterCartSweep(h: Host, t: int)
    ensures AfterCartSweep(Run(h, t).trace)
    decreases h.cancelAt - t
  {
    if h.cancelAt > t {
      var s := Iteration(h, t);
      IterationShape(h, t);
      RunStep(h, t);
      if s.Continue? {
        RunAfterCartSweep(h, s.next);
        RunStartsWithTokenSweep(h, s.next);
        AfterCartSweepAppend(s.events, Run(h, s.next).trace, t, s.next);
      }
    }
  }

  /** The run keeps to the sweep schedule. */
  lemma RunFollowsSchedule(h: Host, t: int)
    ensures Schedule(Run(h, t).trace, t)
  {
    RunStartsWithTokenSweep(h, t);
    RunAfterTokenSweep(h, t);
    RunCartSweepsInWindow(h, t);
    RunAfterCartSweep(h, t);
  }

  /** Every sweep runs after the start and no later than the cancellation. */
  lemma {:induction false} RunWithinShutdown(h: Host, t: int)
    ensures forall i | 0 <= i < |Run(h, t).trace| :: t < Run(h, t).trace[i].at <= h.cancelAt
    decreases h.cancelAt - t
  {
    if h.cancelAt > t {
      var s := Iteration(h, t);
      IterationShape(h, t);
      if s.Continue? {
        RunWithinShutdown(h, s.next);
        var rest := Run(h, s.next).trace;
        assert forall i | 0 <= i < |s.events| :: t < s.events[i].at;
        assert forall i | |s.events| <= i < |s.events + rest| :: (s.events + rest)[i] == rest[i - |s.events|];
      }
    }
  }

  /** A failure ends the loop: it is the failure of a sweep called at some
      instant after the start and after every sweep that completed. */
  lemma {:induction false} RunFailureIsLast(h: Host, t: int)
    ensures Run(h, t).ending.Failed? ==>
              exists x :: t < x
                          && (h.tokenSweep(x) == Some(Run(h, t).ending.failure)
                              || h.cartSweep(x) == Some(Run(h, t).ending.failure))
                          && forall i | 0 <= i < |Run(h, t).trace| :: Run(h, t).trace[i].at < x
    decreases h.cancelAt - t
  {
    if h.cancelAt > t {
      var s := Iteration(h, t);
      IterationShape(h, t);
      if s.Continue? {
        RunFailureIsLast(h, s.next);
        var r := Run(h, s.next);
        if r.ending.Failed? {
          var x :| s.next < x
                   && (h.tokenSweep(x) == Some(r.ending.failure) || h.cartSweep(x) == Some(r.ending.failure))
                   && forall i | 0 <= i < |r.trace| :: r.trace[i].at < x;
          var all := s.events + r.trace;
          assert Run(h, t) == Log(all, r.ending);
          forall i | 0 <= i < |all| ensures all[i].at < x {
            if i >= |s.events| {
              assert all[i] == r.trace[i - |s.events|];
            } else {
              assert all[i] == s.events[i];
            }
          }
        }
      } else if s.ending.Failed? {
        if s.events == [] {
          assert h.tokenSweep(t + SecondMs) == Some(s.ending.failure);
        } else {
          assert h.cartSweep(t + SecondMs + MinuteMs) == Some(s.ending.failure);
        }
      }
    }
  }

  /** With sweeps that never fail, the loop ends only by the cancellation. */
  lemma {:induction false} ReliableSweepsEndByCancellation(h: Host, t: int)
    requires forall x :: h.tokenSweep(x).None? && h.cartSweep(x).None?
    ensures Run(h, t).ending == Stopped || Run(h, t).ending == Canceled
    decreases h.cancelAt - t
  {
    if h.cancelAt > t {
      var s := Iteration(h, t);
      if s.Continue? {
        ReliableSweepsEndByCancellation(h, s.next);
      }
    }
  }

  /** The window is decided by the time read before the one-second delay: a
      pass begun half a second before 06:00 still sweeps the carts, although
      its token sweep runs after 06:00. */
  lemma WindowUsesPreDelayTime()
    ensures var h := Host(CartWindowEnd + 500 + MinuteMs, _ => None, _ => None);
            var t := CartWindowEnd - 500;
            TimeOfDay(t + SecondMs) >= CartWindowEnd
            && Run(h, t) == Log([TokenSweep(t + SecondMs), CartSweep(t + SecondMs + MinuteMs)], Stopped)
  {
    var h := Host(CartWindowEnd + 500 + MinuteMs, _ => None, _ => None);
    var t := CartWindowEnd - 500;
    assert TimeOfDay(t) == t;
    assert h.tokenSweep(t + SecondMs) == None && h.cartSweep(t + SecondMs + MinuteMs) == None;
    assert Iteration(h, t) == Continue([TokenSweep(t + SecondMs), CartSweep(t + SecondMs + MinuteMs)], t + SecondMs + MinuteMs);
    assert Run(h, t + SecondMs + MinuteMs) == Log([], Stopped);
  }

  /** After a pass, the rest of the run from where it left off. */
  lemma RunResumes(h: Host, start: int, trace: seq<Event>, t: int, pass: seq<Event>, next: int, ending: Option<Ending>)
    requires h.cancelAt > t
    requires Run(h, start) == Log(trace + Run(h, t).trace, Run(h, t).ending)
    requires Iteration(h, t) == if ending.Some? then Halt(pass, ending.value) else Continue(pass, next)
    ensures ending.None? ==> t < next && Run(h, start) == Log(trace + pass + Run(h, next).trace, Run(h, next).ending)
    ensures ending.Some? ==> Run(h, start) == Log(trace + pass, ending.value)
  {
    RunStep(h, t);
    if ending.None? {
      var rest := Run(h, next).trace;
      assert trace + pass + rest == trace + (pass + rest);
    }
  }

  /** When the loop exits, the run is complete. */
  lemma RunFinished(h: Host, start: int, trace: seq<Event>, t: int, ending: Option<Ending>)
    requires ending.None? ==> h.cancelAt <= t && Run(h, start) == Log(trace + Run(h, t).trace, Run(h, t).ending)
    requires ending.Some? ==> Run(h, start) == Log(trace, ending.value)
    ensures Run(h, start) == Log(trace, if ending.Some? then ending.value else Stopped)
  {
    if ending.None? {
      assert trace + [] == trace;
    }
  }

  /** The loop body: one pass entered at instant t, returning the sweeps
      that completed, the clock after them, and the ending if the pass threw. */
  method Pass(h: Host, t: int) returns (pass: seq<Event>, now: int, ending: Option<Ending>)
    ensures Iteration(h, t) == if ending.Some? then Halt(pass, ending.value) else Continue(pass, now)
    ensures t <= now
  {
    now := t;
    pass := [];
    ending := None;
    var currentTime := TimeOfDay(now);
    if !DelayCompletes(h, now, SecondMs) {
      ending := Some(Canceled);
      return;
    }
    now := now + SecondMs;
    var failure := h.tokenSweep(now);
    if failure.Some? {
      ending := Some(Failed(failure.value));
      return;
    }
    pass := pass + [TokenSweep(now)];
    if InCartWindow(currentTime) {
      if !DelayCompletes(h, now, MinuteMs) {
        ending := Some(Canceled);
        return;
      }
      now := now + MinuteMs;
      failure := h.cartSweep(now);
      if failure.Some? {
        ending := Some(Failed(failure.value));
        return;
      }
      pass := pass + [CartSweep(now)];
    }
  }

  /**
   * ExecuteAsync: the loop over the simulated clock, starting at `start`.
   */
  method ExecuteAsync(h: Host, start: int) returns (log: Log)
    ensures log == Run(h, start)
    ensures Schedule(log.trace, start)
    ensures forall i | 0 <= i < |log.trace| :: start < log.trace[i].at <= h.cancelAt
  {
    var now := start;
    var trace: seq<Event> := [];
    var ending: Option<Ending> := None;
    while ending.None? && now < h.cancelAt
      invariant ending.None? ==> Run(h, start) == Log(trace + Run(h, now).trace, Run(h, now).ending)
      invariant ending.Some? ==> Run(h, start) == Log(trace, ending.value)
      decreases h.cancelAt - now + (if ending.None? then 1 else 0)
    {
      ghost var top, before := now, trace;
      var pass;
      pass, now, ending := Pass(h, now);
      trace := trace + pass;
      RunResumes(h, start, before, top, pass, now, ending);
    }
    log := Log(trace, if ending.Some? then ending.value else Stopped);
    RunFinished(h, start, trace, now, ending);
    assert Schedule(log.trace, start) by {
      RunFollowsSchedule(h, start);
    }
    assert forall i | 0 <= i < |log.trace| :: start < log.trace[i].at <= h.cancelAt by {
      RunWithinShutdown(h, start);
    }
  }
}
