/** The handler calls of a run against the batches that the kernel delivered. */
module Dispatch {
  import opened Epoll
  import opened Machine
  import opened Protocol
  import opened BreakLoop

  /** A batch without the machine's own events. */
  function ForHandlers(fd: Fd, es: seq<Event>): seq<Event>
  {
    if es == [] then []
    else if es[0].ed.fd == fd then ForHandlers(fd, es[1..])
    else [es[0]] + ForHandlers(fd, es[1..])
  }

  function EventsIn(trace: seq<Dispatched>): seq<Event>
  {
    if trace == [] then [] else EventsIn(trace[..|trace| - 1]) + [trace[|trace| - 1].event]
  }

  lemma {:induction false} ForHandlersConcat(fd: Fd, a: seq<Event>, b: seq<Event>)
    ensures ForHandlers(fd, a + b) == ForHandlers(fd, a) + ForHandlers(fd, b)
  {
    if a == [] {
      assert a + b == b;
    } else {
      ForHandlersConcat(fd, a[1..], b);
      assert (a + b)[0] == a[0] && (a + b)[1..] == a[1..] + b;
      var x, y := ForHandlers(fd, a[1..]), ForHandlers(fd, b);
      assert ([a[0]] + x) + y == [a[0]] + (x + y);
    }
  }

  /** What has been dispatched, followed by what is still to be dispatched, is
      what has been fetched. */
  ghost predicate Faithful(s: State)
  {
    ForHandlers(s.em.breakRead, s.log.fetched) == EventsIn(s.log.trace) + ForHandlers(s.em.breakRead, s.todo)
  }

  lemma FetchFaithful(s: State)
    requires Faithful(s) && Enabled(s, Fetch)
    ensures Faithful(Apply(s, Fetch))
  {
    ForHandlersConcat(s.em.breakRead, s.log.fetched, Batch(s.kernel, s.em.maxEvents));
  }

  lemma EventsInSnoc(trace: seq<Dispatched>, d: Dispatched)
    ensures EventsIn(trace + [d]) == EventsIn(trace) + [d.event]
  {
    assert (trace + [d])[..|trace + [d]| - 1] == trace;
  }

  lemma HeadMoves(fd: Fd, all: seq<Event>, trace: seq<Dispatched>, todo: seq<Event>, d: Dispatched)
    requires all == EventsIn(trace) + ForHandlers(fd, todo)
    requires todo != [] && todo[0].ed.fd != fd && d.event == todo[0]
    ensures all == EventsIn(trace + [d]) + ForHandlers(fd, todo[1..])
  {
    EventsInSnoc(trace, d);
  }

  lemma EnterEffect(s: State)
    requires Enabled(s, Enter)
    ensures var s' := Apply(s, Enter);
      && s.todo != [] && s'.todo == s.todo[1..] && s'.em == s.em && s'.log.fetched == s.log.fetched
      && s'.log.trace != [] && s'.log.trace == s.log.trace + [s'.log.trace[|s'.log.trace| - 1]]
      && s'.log.trace[|s'.log.trace| - 1].event == s.todo[0]
  {
  }

  lemma EnterFaithful(s: State)
    requires Safe(s) && Faithful(s) && Enabled(s, Enter)
    ensures Faithful(Apply(s, Enter))
  {
    EnterEffect(s);
    HeadIsBreak(s);
    hide Safe, EventsIn, ForHandlers, Apply, AtBreak;
    var trace := Apply(s, Enter).log.trace;
    HeadMoves(s.em.breakRead, ForHandlers(s.em.breakRead, s.log.fetched), s.log.trace, s.todo, trace[|trace| - 1]);
  }

  lemma {:induction false} StepFaithful(s: State, step: Step)
    requires Safe(s) && Faithful(s) && Enabled(s, step)
    ensures Faithful(Apply(s, step))
  {
    match step
    case Act(a) => CallFrame(s, a);
    case Fetch => FetchFaithful(s);
    case BreakRead => HeadIsBreak(s);
    case ReadError => HeadIsBreak(s);
    case Enter => EnterFaithful(s);
    case _ =>
  }

  lemma {:induction false} RunFaithful(s: State, steps: seq<Step>)
    requires Safe(s) && Faithful(s) && Follows(s, steps) && PoliteSteps(s.em, steps)
    ensures Faithful(ApplyAll(s, steps))
  {
    if steps != [] {
      var init := steps[..|steps| - 1];
      PolitePrefix(s.em, steps);
      RunFaithful(s, init);
      RunSafe(s, init);
      StepFaithful(ApplyAll(s, init), steps[|steps| - 1]);
    }
  }

  /** When the run has dispatched its last batch, the handler calls are the
      fetched batches one after the other, without the break events: in order,
      exactly once each, and including the events after a break event. */
  lemma {:induction false} TraceIsBatches(s: State, steps: seq<Step>)
    requires Safe(s) && Faithful(s) && Follows(s, steps) && PoliteSteps(s.em, steps)
    requires ApplyAll(s, steps).todo == []
    ensures var s' := ApplyAll(s, steps);
      EventsIn(s'.log.trace) == ForHandlers(s.em.breakRead, s'.log.fetched)
  {
    RunFaithful(s, steps);
    RunSafe(s, steps);
  }
}
