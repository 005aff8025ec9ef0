/** How soon a termination request ends the run. */
module Termination {
  import opened Machine
  import opened Protocol
  import opened BreakLoop
  import opened Rounds

  /** The dispatcher comes to the break event exactly when it reads the byte. */
  lemma {:induction false} ReachedIsRead(s: State, steps: seq<Step>)
    requires Safe(s) && Follows(s, steps) && PoliteSteps(s.em, steps)
    ensures Reached(s, steps, s.em.breakRead) <==> BreakRead in steps
  {
    if steps != [] {
      var init, last := steps[..|steps| - 1], steps[|steps| - 1];
      assert steps == init + [last];
      PolitePrefix(s.em, steps);
      ReachedIsRead(s, init);
      RunSafe(s, init);
      if ApplyAll(s, init).todo != [] {
        HeadIsBreak(ApplyAll(s, init));
      }
    }
  }

  lemma {:induction false} StepKeepsPending(s: State, step: Step)
    requires Safe(s) && Enabled(s, step) && (step.Act? ==> Polite(s.em, step.action))
    requires s.kernel.pending > 0 && !step.BreakRead?
    ensures Apply(s, step).kernel.pending > 0
  {
    match step
    case Act(a) => PolitelyKeeps(s, a);
    case Drain => DrainSafe(s);
    case _ =>
  }

  /** A pending byte keeps the break entry ready until it is read. */
  lemma {:induction false} PendingUntilRead(s: State, steps: seq<Step>)
    requires Safe(s) && Follows(s, steps) && PoliteSteps(s.em, steps) && s.kernel.pending > 0
    ensures ReadyUntilReached(s, steps, s.em.breakRead)
    ensures BreakRead in steps || ApplyAll(s, steps).kernel.pending > 0
  {
    RunSafe(s, steps);
    ReachedIsRead(s, steps);
    if steps != [] {
      var init, last := steps[..|steps| - 1], steps[|steps| - 1];
      assert steps == init + [last];
      PolitePrefix(s.em, steps);
      PendingUntilRead(s, init);
      RunSafe(s, init);
      if BreakRead !in steps {
        StepKeepsPending(ApplyAll(s, init), last);
      }
    }
    if ApplyAll(s, steps).kernel.pending > 0 {
      BreakIsQueued(ApplyAll(s, steps));
    }
  }

  /** At any moment at which a byte is in the pipe, whether a batch is being
      dispatched, a handler runs or the machine waits: the byte is read before
      more than BatchesLeft further batches are fetched, and by the end of the
      last of them. That is none when the break event is in the current batch,
      and p / maxEvents + 1 when the break entry is at position p of the ready
      list. */
  lemma {:induction false} BoundedTermination(s: State, steps: seq<Step>)
    requires Safe(s) && s.em.maxEvents > 0 && Follows(s, steps) && PoliteSteps(s.em, steps)
    requires s.kernel.pending > 0
    ensures var n := BatchesLeft(s, s.em.breakRead);
      && (BreakRead !in steps ==> Fetches(steps) <= n)
      && (Fetches(steps) >= n && ApplyAll(s, steps).todo == [] ==> BreakRead in steps)
  {
    PendingUntilRead(s, steps);
    ReadyIsReached(s, steps, s.em.breakRead);
    ReachedIsRead(s, steps);
  }

  /** The flag break_loop says whether the break byte has been read. */
  lemma {:induction false} BrokeIsRead(s: State, steps: seq<Step>)
    requires Return !in steps && ReadError !in steps
    requires Follows(s, steps)
    ensures ApplyAll(s, steps).broke <==> s.broke || BreakRead in steps
  {
    if steps != [] {
      var init, last := steps[..|steps| - 1], steps[|steps| - 1];
      assert steps == init + [last];
      BrokeIsRead(s, init);
      match last {
        case Act(a) => CallFrame(ApplyAll(s, init), a);
        case _ =>
      }
    }
  }

  /** From any moment of a run at which a byte is in the pipe, the rest of the
      run fetches at most BatchesLeft batches, and none once break_loop is
      set. */
  lemma {:induction false} WholeRunBound(s: State, steps: seq<Step>)
    requires Safe(s) && s.em.maxEvents > 0 && Follows(s, steps) && PoliteSteps(s.em, steps)
    requires Return !in steps && (s.kernel.pending > 0 || s.broke)
    ensures Fetches(steps) <= if s.broke then 0 else BatchesLeft(s, s.em.breakRead)
  {
    if steps != [] {
      var init, last := steps[..|steps| - 1], steps[|steps| - 1];
      assert steps == init + [last];
      PolitePrefix(s.em, steps);
      WholeRunBound(s, init);
      if last == Fetch {
        NoReadError(s, init);
        BrokeIsRead(s, init);
        BoundedTermination(s, init);
      }
    }
  }
}
