/** What event_machine_run() guarantees, and how a request to terminate from
    inside a handler ends it. */
module Runs {
  import opened Machine
  import opened Protocol
  import opened BreakLoop
  import opened Rounds
  import opened Termination
  import opened Script

  /** Steps of handlers and other threads. */
  predicate Quiet(steps: seq<Step>)
  {
    Fetch !in steps && BreakRead !in steps && ReadError !in steps
  }

  predicate NoFetch(steps: seq<Step>)
  {
    Fetch !in steps
  }

  lemma {:induction false} NoFetchCount(a: seq<Step>, b: seq<Step>)
    requires NoFetch(b)
    ensures Fetches(a + b) == Fetches(a)
  {
    if b == [] {
      assert a + b == a;
    } else {
      NoFetchCount(a, b[..|b| - 1]);
      assert (a + b)[..|a + b| - 1] == a + b[..|b| - 1];
    }
  }

  lemma {:induction false} FetchesAdd(a: seq<Step>, b: seq<Step>)
    ensures Fetches(a + b) == Fetches(a) + Fetches(b)
  {
    if b == [] {
      assert a + b == a;
    } else {
      FetchesAdd(a, b[..|b| - 1]);
      assert (a + b)[..|a + b| - 1] == a + b[..|b| - 1];
    }
  }

  lemma OneFetch(a: seq<Step>, b: seq<Step>)
    requires NoFetch(a) && NoFetch(b)
    ensures Fetches(a) == 0 && Fetches(a + [Fetch] + b) == 1
  {
    assert [] + a == a;
    NoFetchCount([], a);
    FetchesAdd(a, [Fetch]);
    NoFetchCount(a + [Fetch], b);
  }

  /** `steps` lead, within a run, from one state to another, and are polite if
      `polite` says that the code of handlers and other threads is. */
  ghost predicate Went(s: State, steps: seq<Step>, s': State, polite: bool)
  {
    && Executes(s, steps, s') && s'.em == s.em && Return !in steps
    && (polite ==> PoliteSteps(s.em, steps))
  }

  /** The same for what handlers and other threads do. */
  ghost predicate Ran(s: State, steps: seq<Step>, s': State, polite: bool)
  {
    Went(s, steps, s', polite) && Quiet(steps)
  }

  lemma WentEnd(s: State, steps: seq<Step>, s': State, polite: bool)
    requires Went(s, steps, s', polite)
    ensures ApplyAll(s, steps) == s'
  {
  }

  lemma WentNowhere(s: State, polite: bool)
    ensures Went(s, [], s, polite) && Fetches([]) == 0
  {
  }

  lemma WentStep(s: State, step: Step, polite: bool)
    requires Enabled(s, step) && Apply(s, step).em == s.em && step != Return
    requires step.Act? && polite ==> Polite(s.em, step.action)
    ensures Went(s, [step], Apply(s, step), polite)
  {
    Extend(s, [], s, step);
    assert [] + [step] == [step];
  }

  lemma WentChain(s: State, a: seq<Step>, s1: State, b: seq<Step>, s2: State, polite: bool)
    requires Went(s, a, s1, polite) && Went(s1, b, s2, polite)
    ensures Went(s, a + b, s2, polite)
  {
    Chain(s, a, s1, b, s2);
  }

  lemma RanStep(s: State, step: Step, polite: bool)
    requires Enabled(s, step) && step !in {Fetch, BreakRead, ReadError, Return} && Apply(s, step).em == s.em
    requires step.Act? && polite ==> Polite(s.em, step.action)
    ensures Ran(s, [step], Apply(s, step), polite)
  {
    WentStep(s, step, polite);
  }

  lemma RanChain(s: State, a: seq<Step>, s1: State, b: seq<Step>, s2: State, polite: bool)
    requires Ran(s, a, s1, polite) && Ran(s1, b, s2, polite)
    ensures Ran(s, a + b, s2, polite)
  {
    WentChain(s, a, s1, b, s2, polite);
  }

  /** What steps within a run do to the account of the break pipe. */
  lemma {:induction false} Accounts(s: State, steps: seq<Step>, s': State, polite: bool)
    requires Went(s, steps, s', polite)
    ensures s'.log.finished == s.log.finished
    ensures Safe(s) && polite ==> Safe(s') && ReadError !in steps
  {
    ReturnsCount(s, steps);
    if Safe(s) && polite {
      RunSafe(s, steps);
      NoReadError(s, steps);
    }
  }

  /** If a byte is in the pipe after the first `i` steps, the rest fetches no
      more batches than are left, and reads the byte if it fetches as many and
      dispatches them. */
  ghost predicate Prompt(s: State, steps: seq<Step>, s': State, i: nat)
    requires i <= |steps|
  {
    var s1 := ApplyAll(s, steps[..i]);
    s1.em == s.em && s.em.maxEvents > 0 && s1.kernel.pending > 0 ==>
      var n := BatchesLeft(s1, s.em.breakRead);
      && Fetches(steps[i..]) <= n
      && (Fetches(steps[i..]) >= n && s'.todo == [] ==> BreakRead in steps)
  }

  lemma {:induction false} PromptAt(s: State, steps: seq<Step>, s': State, i: nat)
    requires Went(s, steps, s', true) && Safe(s) && s.em.maxEvents > 0 && i <= |steps|
    ensures Prompt(s, steps, s', i)
    ensures ApplyAll(s, steps[..i]).em == s.em
  {
    var a, b := steps[..i], steps[i..];
    assert steps == a + b;
    Concat(s, a, b);
    assert PoliteSteps(s.em, a);
    assert forall j :: 0 <= j < |b| ==> b[j] == steps[i + j];
    RunSafe(s, a);
    var s1 := ApplyAll(s, a);
    if s1.kernel.pending > 0 {
      WholeRunBound(s1, b);
      BoundedTermination(s1, b);
    }
  }

  /** event_machine_run() has returned, or waits for what happens next. */
  datatype Outcome = Returned(code: Code) | StillRunning

  predicate NoWaitError(turns: seq<Turn>)
  {
    forall turn :: turn in turns ==> !turn.waitFails
  }

  /** What event_machine_run() guarantees. It takes exactly the steps of the
      script, in the order of the protocol. It returns EM_ERROR_EVENT_WAIT
      exactly when waiting for the next batch fails, EM_ERROR_READ exactly when
      the read of the break byte fails, and EM_SUCCESS exactly when that byte
      has been read.
      If nobody touches the machine's own descriptors, the read of the break
      byte does not fail, and exactly one byte is read for a successful return
      and none otherwise. And from any moment of the run at which a byte is in
      the pipe, no more batches are fetched than are left before the break
      event, and the run returns success within them unless waiting is
      interrupted. */
  ghost predicate RunSpec(s: State, turns: seq<Turn>, outcome: Outcome, batches: nat, steps: seq<Step>, s': State)
    requires s.em.maxEvents > 0
  {
    && Executes(s, steps, s') && s'.em == s.em
    && steps == RunSteps(s, turns)
    && Ends(turns, outcome, batches, steps)
    && batches == Fetches(steps) <= |turns|
    && (outcome == StillRunning ==> batches == |turns|)
    && (PoliteTurns(s.em, turns) ==> PoliteSteps(s.em, steps))
    && (Safe(s) && PoliteTurns(s.em, turns) ==>
          && Safe(s') && outcome != Returned(ErrorRead)
          && var n := if outcome == Returned(Success) then 1 else 0;
             && s'.log.finished == s.log.finished + n
             && s'.log.consumed == s.log.consumed + n)
    && (Safe(s) && PoliteTurns(s.em, turns) ==>
          forall i :: 0 <= i <= |steps| ==> EndsPromptly(s, turns, outcome, steps, i))
  }

  /** Which result stands for which end of the run. */
  predicate Ends(turns: seq<Turn>, outcome: Outcome, batches: nat, steps: seq<Step>)
  {
    && (outcome.Returned? ==> outcome.code in {Success, ErrorEventWait, ErrorRead})
    && (outcome == Returned(ErrorEventWait) <==>
          batches < |turns| && turns[batches].waitFails && BreakRead !in steps && ReadError !in steps)
    && (outcome == Returned(ErrorRead) <==> ReadError in steps)
    && (outcome == Returned(Success) <==> BreakRead in steps && ReadError !in steps)
    && (outcome == Returned(Success) <==> Return in steps)
  }

  /** If a byte is in the pipe after the first `i` steps, with the break entry
      at position p of the ready list, at most p / maxEvents + 1 further batches
      are fetched, none if the break event is in the current batch; and if
      `turns` say what happens for as long, the run returns success. */
  ghost predicate EndsPromptly(s: State, turns: seq<Turn>, outcome: Outcome, steps: seq<Step>, i: nat)
    requires s.em.maxEvents > 0 && i <= |steps|
  {
    var s1 := ApplyAll(s, steps[..i]);
    && s1.em == s.em
    && (s1.kernel.pending > 0 ==>
          var n := BatchesLeft(s1, s.em.breakRead);
          && Fetches(steps[i..]) <= n
          && (NoWaitError(turns) && |turns| >= Fetches(steps[..i]) + n ==> outcome == Returned(Success)))
  }

  lemma {:induction false} PromptEnds(s: State, turns: seq<Turn>, outcome: Outcome, steps: seq<Step>, s': State)
    requires s.em.maxEvents > 0 && Safe(s) && Went(s, steps, s', true) && s'.todo == []
    requires outcome == StillRunning ==> BreakRead !in steps && Fetches(steps) == |turns|
    requires outcome.Returned? ==> outcome.code == Success || (outcome.code == ErrorEventWait && !NoWaitError(turns))
    ensures forall i :: 0 <= i <= |steps| ==> EndsPromptly(s, turns, outcome, steps, i)
  {
    forall i | 0 <= i <= |steps| ensures EndsPromptly(s, turns, outcome, steps, i) {
      PromptAt(s, steps, s', i);
      FetchesSplit(steps, i);
      hide Went, Safe, ApplyAll, BatchesLeft, Fetches;
    }
  }

  lemma FetchesSplit(steps: seq<Step>, i: nat)
    requires i <= |steps|
    ensures Fetches(steps) == Fetches(steps[..i]) + Fetches(steps[i..])
  {
    assert steps == steps[..i] + steps[i..];
    FetchesAdd(steps[..i], steps[i..]);
  }

  lemma FetchesReturn(steps: seq<Step>)
    ensures Fetches(steps + [Return]) == Fetches(steps) && Fetches([]) == 0
  {
    FetchesAdd(steps, [Return]);
  }

  lemma {:induction false} ReturnEnds(s: State, turns: seq<Turn>, steps: seq<Step>, s': State)
    requires s.em.maxEvents > 0 && Safe(s) && Went(s, steps, s', true) && s'.todo == []
    ensures forall i :: 0 <= i <= |steps + [Return]| ==>
      EndsPromptly(s, turns, Returned(Success), steps + [Return], i)
  {
    PromptEnds(s, turns, Returned(Success), steps, s');
    hide Went, Safe, BatchesLeft, NoWaitError, ApplyAll, Fetches;
    var all := steps + [Return];
    forall i | 0 <= i <= |all| ensures EndsPromptly(s, turns, Returned(Success), all, i) {
      EmFixed(s, all[..i]);
      if i <= |steps| {
        assert EndsPromptly(s, turns, Returned(Success), steps, i);
        assert all[..i] == steps[..i] && all[i..] == steps[i..] + [Return];
        FetchesReturn(steps[i..]);
      } else {
        assert all[i..] == [];
        FetchesReturn([]);
      }
    }
  }

  ghost predicate AtRest(s: State)
  {
    s.todo == [] && !s.broke && s.active == Idle && s.em.maxEvents > 0
  }

  /** The run waits for what happens next. */
  lemma WaitingSpec(s: State, turns: seq<Turn>, steps: seq<Step>, s': State)
    requires AtRest(s) && AtRest(s') && Went(s, steps, s', PoliteTurns(s.em, turns))
    requires BreakRead !in steps && ReadError !in steps && Fetches(steps) == |turns|
    requires steps == RunSteps(s, turns)
    ensures RunSpec(s, turns, StillRunning, |turns|, steps, s')
  {
    Accounts(s, steps, s', PoliteTurns(s.em, turns));
    if Safe(s) && PoliteTurns(s.em, turns) {
      PromptEnds(s, turns, StillRunning, steps, s');
    }
  }

  /** The run has failed. */
  lemma FailedSpec(s: State, turns: seq<Turn>, r: Code, steps: seq<Step>, s': State)
    requires AtRest(s) && AtRest(s') && Went(s, steps, s', PoliteTurns(s.em, turns))
    requires Fetches(steps) <= |turns| && steps == RunSteps(s, turns)
    requires ReadError in steps ==> r == ErrorRead
    requires ReadError !in steps ==>
      r == ErrorEventWait && BreakRead !in steps && Fetches(steps) < |turns| && turns[Fetches(steps)].waitFails
    ensures RunSpec(s, turns, Returned(r), Fetches(steps), steps, s')
  {
    Accounts(s, steps, s', PoliteTurns(s.em, turns));
    if Safe(s) && PoliteTurns(s.em, turns) {
      PromptEnds(s, turns, Returned(r), steps, s');
    }
  }

  lemma SuccessEnds(turns: seq<Turn>, batches: nat, steps: seq<Step>)
    requires BreakRead in steps && ReadError !in steps
    ensures Ends(turns, Returned(Success), batches, steps + [Return])
  {
    assert Return in steps + [Return];
  }

  /** The run has succeeded. */
  lemma SucceededSpec(s: State, turns: seq<Turn>, steps: seq<Step>, s1: State)
    requires AtRest(s) && Went(s, steps, s1, PoliteTurns(s.em, turns))
    requires s1.todo == [] && s1.broke && s1.active == Idle && Fetches(steps) <= |turns|
    requires BreakRead in steps && ReadError !in steps && steps + [Return] == RunSteps(s, turns)
    ensures RunSpec(s, turns, Returned(Success), Fetches(steps), steps + [Return], Apply(s1, Return))
  {
    hide RunSteps, EndsPromptly, PoliteTurns;
    Accounts(s, steps, s1, PoliteTurns(s.em, turns));
    Extend(s, steps, s1, Return);
    SuccessEnds(turns, Fetches(steps), steps);
    hide Ends;
    FetchesAdd(steps, [Return]);
    if Safe(s) && PoliteTurns(s.em, turns) {
      ReturnEnds(s, turns, steps, s1);
    }
  }

  // ------------------------------------------- terminate calls during the run

  /** The run ends within the batches left after the i-th step. */
  ghost predicate EndsFrom(s: State, turns: seq<Turn>, outcome: Outcome, steps: seq<Step>, i: nat)
    requires s.em.maxEvents > 0 && i < |steps|
  {
    var s1 := ApplyAll(s, steps[..i + 1]);
    && s1.em == s.em && s1.kernel.pending > 0
    && Fetches(steps[i + 1..]) <= BatchesLeft(s1, s.em.breakRead)
    && (|turns| >= Fetches(steps[..i + 1]) + BatchesLeft(s1, s.em.breakRead) ==> outcome == Returned(Success))
  }

  /** From any moment at which event_machine_terminate() is called, whether from
      a handler or from another thread, the rest of the run fetches no more
      batches than are left before the break event, and the run returns success
      if `turns` say what happens for as long. */
  lemma {:induction false} TerminateEndsRun(
      s: State, turns: seq<Turn>, outcome: Outcome, batches: nat, steps: seq<Step>, s': State, i: nat)
    requires s.em.maxEvents > 0 && RunSpec(s, turns, outcome, batches, steps, s')
    requires Safe(s) && PoliteTurns(s.em, turns) && NoWaitError(turns)
    requires i < |steps| && steps[i] == Act(TerminateCall(false))
    ensures EndsFrom(s, turns, outcome, steps, i)
  {
    assert EndsPromptly(s, turns, outcome, steps, i + 1);
    TerminateLeavesByte(s, steps, i);
    hide Safe, Follows, BatchesLeft, Fetches, RunSteps, Ends;
  }

  lemma {:induction false} TerminateLeavesByte(s: State, steps: seq<Step>, i: nat)
    requires Safe(s) && Follows(s, steps) && PoliteSteps(s.em, steps)
    requires i < |steps| && steps[i] == Act(TerminateCall(false))
    ensures ApplyAll(s, steps[..i + 1]).kernel.pending > 0
  {
    var init := steps[..i];
    assert steps == init + steps[i..];
    assert steps[..i + 1][..i] == init;
    assert ApplyAll(s, steps[..i + 1]) == Terminate(ApplyAll(s, init), false).1;
    hide ApplyAll, Apply, Safe, Terminate;
    Concat(s, init, steps[i..]);
    TerminateIsNotLost(s, init);
  }

  /** A handler that is reached and calls event_machine_terminate() ends the
      run. */
  lemma {:induction false} HandlerEndsRun(
      s: State, turns: seq<Turn>, outcome: Outcome, batches: nat, steps: seq<Step>, s': State, k: nat, j: nat)
    requires s.em.maxEvents > 0 && RunSpec(s, turns, outcome, batches, steps, s')
    requires Safe(s) && PoliteTurns(s.em, turns) && NoWaitError(turns)
    requires HandlerReaches(s, turns, k, j, TerminateCall(false))
    ensures exists i ::
      0 <= i < |steps| && steps[i] == Act(TerminateCall(false)) && EndsFrom(s, turns, outcome, steps, i)
  {
    ReachedHandlerActs(s, turns, k, j, TerminateCall(false));
    var i :| 0 <= i < |steps| && steps[i] == Act(TerminateCall(false));
    TerminateEndsRun(s, turns, outcome, batches, steps, s', i);
    hide HandlerReaches, RunSpec, Safe;
    assert EndsFrom(s, turns, outcome, steps, i);
  }
}
