/** Whoever stays ready is served: its handler is called within a bounded
    number of batches. In particular a timer that has expired, registered
    level-triggered, stays in the ready list until its handler has read it, so
    that a handler that could not read it may rely on being called again. */
module Service {
  import opened Epoll
  import opened ReadyList
  import opened Machine
  import opened Protocol
  import opened BreakLoop
  import opened Rounds
  import opened Population
  import opened Expiry

  /** The handler calls made since `s`. */
  function CallsSince(s: State, s': State): seq<Dispatched>
  {
    if |s.log.trace| <= |s'.log.trace| then s'.log.trace[|s.log.trace|..] else []
  }

  ghost predicate Served(s: State, s': State, fd: Fd)
  {
    exists d :: d in CallsSince(s, s') && d.event.ed.fd == fd
  }

  lemma StepTrace(s: State, step: Step)
    requires Enabled(s, step)
    ensures if step.Enter? then |Apply(s, step).log.trace| == |s.log.trace| + 1
              && Apply(s, step).log.trace[..|s.log.trace|] == s.log.trace
              && Apply(s, step).log.trace[|s.log.trace|].event == s.todo[0]
            else Apply(s, step).log.trace == s.log.trace
  {
    if step.Act? {
      CallFrame(s, step.action);
    }
  }

  lemma {:induction false} TraceGrows(s: State, steps: seq<Step>)
    requires Follows(s, steps)
    ensures |s.log.trace| <= |ApplyAll(s, steps).log.trace|
  {
    if steps != [] {
      TraceGrows(s, steps[..|steps| - 1]);
      StepTrace(ApplyAll(s, steps[..|steps| - 1]), steps[|steps| - 1]);
    }
  }

  /** One more step calls the handler if and only if it comes to its event. */
  lemma StepServes(s: State, s1: State, step: Step, fd: Fd)
    requires |s.log.trace| <= |s1.log.trace| && Enabled(s1, step)
    ensures Served(s, Apply(s1, step), fd) <==>
      Served(s, s1, fd) || (step.Enter? && s1.todo[0].ed.fd == fd)
  {
    var s2 := Apply(s1, step);
    StepTrace(s1, step);
    if step.Enter? {
      var d := s2.log.trace[|s1.log.trace|];
      assert CallsSince(s, s2) == CallsSince(s, s1) + [d];
      assert d in CallsSince(s, s2);
      assert forall x :: x in CallsSince(s, s1) ==> x in CallsSince(s, s2);
    }
  }

  /** For a descriptor of the user or a timer, to come to its event is to call
      its handler. */
  lemma {:induction false} ReachedIsServed(s: State, steps: seq<Step>, fd: Fd)
    requires Safe(s) && Follows(s, steps) && PoliteSteps(s.em, steps) && fd != s.em.breakRead
    ensures Reached(s, steps, fd) <==> Served(s, ApplyAll(s, steps), fd)
  {
    if steps != [] {
      var init, last := steps[..|steps| - 1], steps[|steps| - 1];
      PolitePrefix(s.em, steps);
      ReachedIsServed(s, init, fd);
      TraceGrows(s, init);
      RunSafe(s, init);
      if ApplyAll(s, init).todo != [] {
        HeadIsBreak(ApplyAll(s, init));
      }
      StepServes(s, ApplyAll(s, init), last, fd);
    }
  }

  /** From any moment of any polite run: a registered, level-triggered
      descriptor that stays ready has its handler called before more than
      BatchesLeft batches are fetched, and by the end of the last of them;
      however many other descriptors are ready, added or removed. */
  lemma {:induction false} ReadyIsServed(s: State, steps: seq<Step>, fd: Fd)
    requires Safe(s) && s.em.maxEvents > 0 && fd != s.em.breakRead
    requires Follows(s, steps) && PoliteSteps(s.em, steps) && ReadyUntilReached(s, steps, fd)
    ensures var n := BatchesLeft(s, fd);
      && (!Served(s, ApplyAll(s, steps), fd) ==> Fetches(steps) <= n)
      && (Fetches(steps) >= n && ApplyAll(s, steps).todo == [] ==> Served(s, ApplyAll(s, steps), fd))
  {
    ReachedIsServed(s, steps, fd);
    ReadyIsReached(s, steps, fd);
  }

  // ----------------------------------------------------------------- timers

  /** Timer `t` has unread ticks, and its handler is not about to read them. */
  ghost predicate Unserved(s: State, t: nat)
  {
    && t in s.handles && IsLive(s.handles[t]) && Unread(s, t) > 0
    && !(s.active.Expired? && s.active.fd == s.handles[t].ed.fd)
  }

  lemma TicksAreReady(s: State, t: nat)
    requires Sound(s) && t in s.handles && IsLive(s.handles[t]) && Unread(s, t) > 0
    ensures LevelReady(s.kernel, s.handles[t].ed.fd) && s.handles[t].ed.fd != s.em.breakRead
  {
    assert TimerEntry(s.kernel, t, s.handles[t]);
    assert In in Revents(s.kernel, s.handles[t].ed.fd);
  }

  lemma {:induction false} ElapseKeepsTicks(t: TimerFd, now: nat)
    ensures Elapse(t, now).ticks >= t.ticks
    decreases if t.armed && t.interval > 0 && t.next <= now then now - t.next + 1 else 0
  {
    if t.armed && t.next <= now && t.interval > 0 {
      ElapseKeepsTicks(TimerFd(true, t.next + t.interval, t.interval, t.ticks + 1), now);
    }
  }

  lemma {:induction false} CallKeepsTicks(s: State, a: Action, t: nat)
    requires Sound(s) && Orderly(s, a) && t !in Target(a) && Unserved(s, t)
    ensures Unserved(Call(s, a).1, t) && Call(s, a).1.handles[t] == s.handles[t]
  {
    CallFrame(s, a);
    CallPopulates(s, a);
    if a.Pass? {
      ElapseKeepsTicks(TimerOf(s.kernel, s.handles[t]), s.kernel.now + a.dt);
      WakeAllFacts(ElapseAll(s.kernel, a.dt), a.order);
    } else {
      assert Undisturbed(s, Call(s, a).1, t);
    }
  }

  /** Nothing takes the ticks away but the handler, and nobody calls it but
      the dispatcher. */
  lemma {:induction false} StepKeepsTicks(s: State, step: Step, t: nat)
    requires Steady(s) && Enabled(s, step) && Unserved(s, t) && !Reaches(s, step, s.handles[t].ed.fd)
    requires step.Act? ==> Careful(s, step.action) && t !in Target(step.action)
    ensures Unserved(Apply(s, step), t) && Apply(s, step).handles[t] == s.handles[t]
  {
    match step
    case Act(a) => CallKeepsTicks(s, a, t);
    case Enter => HeadIsCurrent(s);
    case _ =>
  }

  lemma {:induction false} TicksUntilReached(s: State, steps: seq<Step>, t: nat, fd: Fd)
    requires Steady(s) && Follows(s, steps) && Obeys(Careful, s, steps) && Spared(t, steps)
    requires Unserved(s, t) && s.handles[t].ed.fd == fd
    ensures ReadyUntilReached(s, steps, fd)
    ensures var s' := ApplyAll(s, steps);
      Reached(s, steps, fd) || (Unserved(s', t) && s'.handles[t].ed.fd == fd)
  {
    RunSteady(s, steps);
    if steps != [] {
      var init := steps[..|steps| - 1];
      TicksUntilReached(s, init, t, fd);
      RunSteady(s, init);
      if !Reached(s, steps, fd) {
        StepKeepsTicks(ApplyAll(s, init), steps[|steps| - 1], t);
      }
    }
    if !Reached(s, steps, fd) {
      TicksAreReady(ApplyAll(s, steps), t);
    }
  }

  /** From any moment of any careful run, in mid-batch or in a handler: a timer
      with unread ticks has its handler called before more than BatchesLeft
      batches are fetched, and by the end of the last of them, unless it is
      started, stopped or destroyed before: none if its event is in the current
      batch, p / maxEvents + 1 if it is at position p of the ready list. */
  lemma {:induction false} ExpiredTimerIsServed(s: State, steps: seq<Step>, t: nat)
    requires Steady(s) && s.em.maxEvents > 0 && Unserved(s, t)
    requires Follows(s, steps) && Obeys(Careful, s, steps) && Spared(t, steps)
    ensures var fd := s.handles[t].ed.fd;
      var n := BatchesLeft(s, fd);
      && (!Served(s, ApplyAll(s, steps), fd) ==> Fetches(steps) <= n)
      && (Fetches(steps) >= n && ApplyAll(s, steps).todo == [] ==> Served(s, ApplyAll(s, steps), fd))
  {
    var fd := s.handles[t].ed.fd;
    TicksUntilReached(s, steps, t, fd);
    TicksAreReady(s, t);
    RuleIsPolite(Careful, s, steps);
    ReadyIsServed(s, steps, fd);
  }
}
