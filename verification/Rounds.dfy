/** Round-robin service: how many batches a descriptor waits that is ready,
    level-triggered and stays so, from any moment of any run. */
module Rounds {
  import opened Epoll
  import opened ReadyList
  import opened Machine
  import opened Timers
  import opened Protocol
  import opened TimerLife
  import opened BreakLoop
  import opened Quotients

  /** Batches fetched in a sequence of steps. */
  function Fetches(steps: seq<Step>): nat
  {
    if steps == [] then 0
    else Fetches(steps[..|steps| - 1]) + (if steps[|steps| - 1] == Fetch then 1 else 0)
  }

  /** Its event waits in the part of the batch that is not yet dispatched. */
  predicate Awaited(s: State, fd: Fd)
  {
    exists e :: e in s.todo && e.ed.fd == fd
  }

  /** The dispatcher comes to its event: reads the break byte or calls the
      handler. */
  predicate Reaches(s: State, step: Step, fd: Fd)
  {
    (step.Enter? || step.BreakRead?) && s.todo != [] && s.todo[0].ed.fd == fd
  }

  predicate Reached(s: State, steps: seq<Step>, fd: Fd)
  {
    steps != [] &&
    (var init := steps[..|steps| - 1];
     Reached(s, init, fd) || Reaches(ApplyAll(s, init), steps[|steps| - 1], fd))
  }

  ghost predicate LevelReady(k: Kernel, fd: Fd)
  {
    IsLevel(k, fd) && Revents(k, fd) != {}
  }

  /** Registered level-triggered and ready, at every moment until then. */
  ghost predicate ReadyUntilReached(s: State, steps: seq<Step>, fd: Fd)
  {
    && (steps == [] || ReadyUntilReached(s, steps[..|steps| - 1], fd))
    && (Reached(s, steps, fd) || LevelReady(ApplyAll(s, steps).kernel, fd))
  }

  /** The batches still to be fetched before its event has been dispatched:
      none if it is in the current batch, otherwise one more than the whole
      batches ahead of it in the ready list. */
  function BatchesLeft(s: State, fd: Fd): (n: nat)
    requires s.em.maxEvents > 0
    ensures s.todo == [] ==> n >= 1
  {
    if Awaited(s, fd) then 0 else Position(s.kernel.ready, fd) / s.em.maxEvents + 1
  }

  // ------------------------------------------------------ place in the queue

  /** `x` has not moved back in the ready list. */
  ghost predicate KeepsPlace(k: Kernel, k': Kernel, x: Fd)
  {
    x in k.ready ==> x in k'.ready && Position(k'.ready, x) <= Position(k.ready, x)
  }

  lemma WakePlace(k: Kernel, fd: Fd, x: Fd)
    ensures KeepsPlace(k, Wake(k, fd), x)
  {
    if x in k.ready {
      AppendPosition(k.ready, [fd], x);
    }
  }

  lemma ForgetPlace(k: Kernel, fd: Fd, x: Fd)
    requires x != fd
    ensures KeepsPlace(k, Forget(k, fd), x) && KeepsPlace(k, CloseFd(k, fd), x)
  {
    WithoutFacts(k.ready, fd);
    if x in k.ready {
      WithoutPosition(k.ready, fd, x);
    }
  }

  lemma AdvancePlace(k: Kernel, dt: nat, order: seq<Fd>, x: Fd)
    requires KernelOk(k)
    ensures KeepsPlace(k, Advance(k, dt, order), x)
  {
    AdvanceOk(k, dt, order);
    var k' := Advance(k, dt, order);
    if x in k.ready {
      AppendPosition(k.ready, k'.ready[|k.ready|..], x);
      assert k.ready + k'.ready[|k.ready|..] == k'.ready;
    }
  }

  lemma RegisterPlace(k: Kernel, ed: Descriptor, x: Fd)
    ensures KeepsPlace(k, Wake(k.(interest := k.interest[ed.fd := ed]), ed.fd), x)
  {
    WakePlace(k.(interest := k.interest[ed.fd := ed]), ed.fd, x);
  }

  /** The registry functions. */
  lemma UserCallPlace(s: State, a: Action, x: Fd)
    requires a.AddCall? || a.DeleteCall? || a.ModifyCall?
    requires x in Call(s, a).1.kernel.interest
    ensures KeepsPlace(s.kernel, Call(s, a).1.kernel, x)
  {
    hide Position, Without, Revents, Wake, Insert, Remove, Replace;
    match a
    case AddCall(ed, _) => if ed.Some? { RegisterPlace(s.kernel, ed.value, x); }
    case DeleteCall(fd) => if fd != x { ForgetPlace(s.kernel, fd, x); }
    case ModifyCall(_, ed, _) => if ed.Some? { RegisterPlace(s.kernel, ed.value, x); }
  }

  lemma OtherCallPlace(s: State, a: Action, x: Fd)
    requires a.TerminateCall? || a.StartCall? || a.StopCall? || a.OpenPlain? || a.CloseAny? || a.Becomes?
    requires x in Call(s, a).1.kernel.interest
    ensures KeepsPlace(s.kernel, Call(s, a).1.kernel, x)
  {
    hide Position, Without, Revents, Wake, Encode;
    var k := s.kernel;
    match a
    case TerminateCall(_) => WakePlace(k.(pending := k.pending + 1), k.pipeRead, x);
    case CloseAny(fd) => if fd != x { ForgetPlace(k, fd, x); }
    case Becomes(fd, cond) =>
      if fd in k.files && k.files[fd].Plain? {
        WakePlace(k.(files := k.files[fd := k.files[fd].(cond := cond)]), fd, x);
      }
    case _ =>
  }

  lemma {:induction false} CreatePlace(
      s: State, t: nat, callback: Option<nat>, data: Data, newFd: Fd, whim: Whim, x: Fd)
    requires KernelOk(s.kernel) && t in s.handles
    ensures KeepsPlace(s.kernel, Create(s, t, callback, data, newFd, whim).1.kernel, x)
  {
    CreateOutcome(s, t, callback, data, newFd, whim);
    hide KernelOk, Create;
  }

  lemma DestroyPlace(s: State, t: nat, closeFault: bool, x: Fd)
    requires KernelOk(s.kernel) && t in s.handles && x in Destroy(s, t, closeFault).1.kernel.interest
    ensures KeepsPlace(s.kernel, Destroy(s, t, closeFault).1.kernel, x)
  {
    DestroyOutcome(s, t, closeFault);
    var fd := s.handles[t].ed.fd;
    if fd != x {
      ForgetPlace(s.kernel, fd, x);
    }
  }

  /** No call moves a descriptor back that is registered afterwards. */
  lemma {:induction false} CallKeepsPlace(s: State, a: Action, x: Fd)
    requires KernelOk(s.kernel) && x in Call(s, a).1.kernel.interest
    ensures KeepsPlace(s.kernel, Call(s, a).1.kernel, x)
  {
    match a
    case AddCall(_, _) => UserCallPlace(s, a, x);
    case DeleteCall(_) => UserCallPlace(s, a, x);
    case ModifyCall(_, _, _) => UserCallPlace(s, a, x);
    case CreateCall(t, callback, data, newFd, whim) =>
      if t in s.handles { CreatePlace(s, t, callback, data, newFd, whim, x); }
    case DestroyCall(t, closeFault) => if t in s.handles { DestroyPlace(s, t, closeFault, x); }
    case Pass(dt, order) => AdvancePlace(s.kernel, dt, order, x);
    case _ => OtherCallPlace(s, a, x);
    hide Call, KernelOk, KeepsPlace;
  }

  // --------------------------------------------------------- batches go down

  /** Neither delivered nor moved back. */
  lemma StillLeft(s: State, s': State, fd: Fd)
    requires s'.em == s.em && s.em.maxEvents > 0 && fd in s.kernel.ready
    requires Awaited(s', fd) <==> Awaited(s, fd)
    requires KeepsPlace(s.kernel, s'.kernel, fd)
    ensures BatchesLeft(s', fd) <= BatchesLeft(s, fd)
  {
    QuotientMonotone(Position(s'.kernel.ready, fd), Position(s.kernel.ready, fd), s.em.maxEvents);
  }

  lemma TailAwaits(s: State, fd: Fd)
    requires s.todo != [] && s.todo[0].ed.fd != fd
    ensures Awaited(s.(todo := s.todo[1..]), fd) <==> Awaited(s, fd)
  {
    assert s.todo == [s.todo[0]] + s.todo[1..];
  }

  lemma ActLeft(s: State, a: Action, fd: Fd)
    requires KernelOk(s.kernel) && s.em.maxEvents > 0 && fd in s.kernel.ready
    requires fd in Call(s, a).1.kernel.interest && Call(s, a).1.em == s.em
    ensures BatchesLeft(Call(s, a).1, fd) <= BatchesLeft(s, fd)
  {
    CallFrame(s, a);
    CallKeepsPlace(s, a, fd);
    StillLeft(s, Call(s, a).1, fd);
  }

  lemma FetchLeft(s: State, fd: Fd)
    requires KernelOk(s.kernel) && Enabled(s, Fetch) && fd in s.kernel.ready && Revents(s.kernel, fd) != {}
    ensures BatchesLeft(Apply(s, Fetch), fd) + 1 <= BatchesLeft(s, fd)
  {
    var m, s' := s.em.maxEvents, Apply(s, Fetch);
    WaitProgress(s.kernel, m, fd);
    var e := Event(s.kernel.interest[fd], Revents(s.kernel, fd));
    if e in Batch(s.kernel, m) {
      assert e in s'.todo && e.ed.fd == fd;
    } else {
      QuotientShift(Position(s'.kernel.ready, fd), Position(s.kernel.ready, fd), m);
    }
  }

  lemma BreakReadLeft(s: State, fd: Fd)
    requires s.em.maxEvents > 0 && Enabled(s, BreakRead) && !Reaches(s, BreakRead, fd) && fd in s.kernel.ready
    ensures BatchesLeft(Apply(s, BreakRead), fd) <= BatchesLeft(s, fd)
  {
    TailAwaits(s, fd);
    WakePlace(s.kernel.(pending := s.kernel.pending - 1), s.kernel.pipeWrite, fd);
    StillLeft(s, Apply(s, BreakRead), fd);
  }

  lemma EnterLeft(s: State, fd: Fd)
    requires s.em.maxEvents > 0 && Enabled(s, Enter) && !Reaches(s, Enter, fd) && fd in s.kernel.ready
    ensures BatchesLeft(Apply(s, Enter), fd) <= BatchesLeft(s, fd)
  {
    TailAwaits(s, fd);
    StillLeft(s, Apply(s, Enter), fd);
  }

  /** Steps inside a handler. */
  lemma InnerLeft(s: State, step: Step, fd: Fd)
    requires s.em.maxEvents > 0 && fd in s.kernel.ready
    requires step.Drain? || step.Callback? || step.Leave? || step.Return?
    ensures BatchesLeft(Apply(s, step), fd) <= BatchesLeft(s, fd)
  {
    StillLeft(s, Apply(s, step), fd);
  }

  /** Every fetch brings the event a batch closer, and nothing else sets it
      back. */
  lemma {:induction false} StepLeft(s: State, step: Step, fd: Fd)
    requires Safe(s) && s.em.maxEvents > 0 && Enabled(s, step)
    requires LevelReady(s.kernel, fd) && !Reaches(s, step, fd) && fd in Apply(s, step).kernel.interest
    ensures Apply(s, step).em == s.em
    ensures BatchesLeft(Apply(s, step), fd) + (if step == Fetch then 1 else 0) <= BatchesLeft(s, fd)
  {
    StepFixed(s, step);
    match step
    case Act(a) => ActLeft(s, a, fd);
    case Fetch => FetchLeft(s, fd);
    case BreakRead => BreakReadLeft(s, fd);
    case ReadError => HeadIsBreak(s);
    case Enter => EnterLeft(s, fd);
    case _ => InnerLeft(s, step, fd);
  }

  lemma {:induction false} RunLeft(s: State, steps: seq<Step>, fd: Fd)
    requires Safe(s) && s.em.maxEvents > 0 && Follows(s, steps) && PoliteSteps(s.em, steps)
    requires ReadyUntilReached(s, steps, fd) && !Reached(s, steps, fd)
    ensures ApplyAll(s, steps).em == s.em
    ensures Fetches(steps) + BatchesLeft(ApplyAll(s, steps), fd) <= BatchesLeft(s, fd)
  {
    if steps != [] {
      var init := steps[..|steps| - 1];
      PolitePrefix(s.em, steps);
      RunLeft(s, init, fd);
      RunSafe(s, init);
      StepLeft(ApplyAll(s, init), steps[|steps| - 1], fd);
    }
  }

  /** From any moment of any run, in mid-batch or in a handler: the event of a
      descriptor that stays ready is dispatched before more than BatchesLeft
      batches are fetched, and by the end of the last of them. */
  lemma {:induction false} ReadyIsReached(s: State, steps: seq<Step>, fd: Fd)
    requires Safe(s) && s.em.maxEvents > 0 && Follows(s, steps) && PoliteSteps(s.em, steps)
    requires ReadyUntilReached(s, steps, fd)
    ensures Fetches(steps) > BatchesLeft(s, fd) ==> Reached(s, steps, fd)
    ensures Fetches(steps) >= BatchesLeft(s, fd) && ApplyAll(s, steps).todo == [] ==> Reached(s, steps, fd)
  {
    if !Reached(s, steps, fd) {
      RunLeft(s, steps, fd);
    }
  }
}
