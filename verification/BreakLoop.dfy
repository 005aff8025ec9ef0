/** The self-pipe that ends the loop: what every step keeps while nobody
    touches the machine's own descriptors, that no termination request is
    lost, and how soon a pending one ends the run. */
module BreakLoop {
  import opened Epoll
  import opened ReadyList
  import opened Machine
  import opened Timers
  import opened Protocol

  function BreakDescriptor(fd: Fd): Descriptor
  {
    Descriptor(BreakAddr, fd, {In}, NullData, NullHandler)
  }

  /** Handlers and other threads leave the queue and the break pipe alone. No
      other restriction is placed on what they do. */
  predicate Polite(em: Em, a: Action)
  {
    match a
    case DeleteCall(fd) => fd != em.breakRead
    case ModifyCall(_, ed, _) => ed.Some? ==> ed.value.fd != em.breakRead
    case CloseAny(fd) => fd != em.breakRead && fd != em.breakWrite && fd != em.queueFd
    case _ => true
  }

  predicate PoliteSteps(em: Em, steps: seq<Step>)
  {
    forall i :: 0 <= i < |steps| && steps[i].Act? ==> Polite(em, steps[i].action)
  }

  // --------------------------------------------------------------- invariant

  ghost predicate BreakOk(em: Em, k: Kernel)
  {
    && em.queueFd in k.files && k.files[em.queueFd] == Queue
    && em.breakRead in k.files && k.files[em.breakRead] == PipeEnd
    && em.breakWrite in k.files && k.files[em.breakWrite] == PipeEnd
    && em.breakRead != em.breakWrite
    && k.pipeRead == em.breakRead && k.pipeWrite == em.breakWrite
    && em.breakEd == BreakDescriptor(em.breakRead)
    && IsRegistered(k, em.breakEd)
  }

  ghost predicate HandlesOk(em: Em, handles: map<nat, Handle>)
  {
    forall t :: t in handles ==>
      && handles[t].ed.addr == TimerAddr(t)
      && handles[t].ed.fd !in {em.breakRead, em.breakWrite, em.queueFd}
  }

  ghost predicate TodoOk(s: State)
  {
    && (forall i, j :: 0 <= i < j < |s.todo| ==> s.todo[i].ed.fd != s.todo[j].ed.fd)
    && (forall e :: e in s.todo && e.ed.fd == s.em.breakRead ==>
          e.ed == s.em.breakEd && s.kernel.pending > 0 && !s.broke)
  }

  /** Every byte written is still in the pipe or has ended one run. */
  ghost predicate Bytes(s: State)
  {
    && s.log.written == s.kernel.pending + s.log.consumed
    && s.log.consumed == s.log.finished + (if s.broke then 1 else 0)
  }

  ghost predicate Safe(s: State)
  {
    && KernelOk(s.kernel)
    && BreakOk(s.em, s.kernel)
    && HandlesOk(s.em, s.handles)
    && TodoOk(s)
    && Bytes(s)
  }

  // -------------------------------------------------- kernel operations keep

  /** The break entry and its files are as before. */
  ghost predicate Keeps(em: Em, k: Kernel, k': Kernel)
  {
    && KernelOk(k') && BreakOk(em, k')
    && k'.capacity == k.capacity
  }

  lemma KeepWake(em: Em, k: Kernel, fd: Fd)
    requires BreakOk(em, k) && KernelOk(Wake(k, fd))
    ensures Keeps(em, k, Wake(k, fd))
  {
  }

  lemma KeepForget(em: Em, k: Kernel, fd: Fd)
    requires BreakOk(em, k) && KernelOk(k) && fd != em.breakRead
    ensures Keeps(em, k, Forget(k, fd))
    ensures fd != em.breakWrite && fd != em.queueFd ==> Keeps(em, k, CloseFd(k, fd))
  {
    ForgetOk(k, fd);
  }

  lemma KeepRegister(em: Em, k: Kernel, ed: Descriptor)
    requires BreakOk(em, k) && KernelOk(k) && ed.fd in k.files && Pollable(k.files[ed.fd])
    requires ed.fd != em.breakRead
    ensures Keeps(em, k, Wake(k.(interest := k.interest[ed.fd := ed]), ed.fd))
  {
    RegisterOk(k, ed);
    KeepWake(em, k.(interest := k.interest[ed.fd := ed]), ed.fd);
  }

  lemma KeepAdvance(em: Em, k: Kernel, dt: nat, order: seq<Fd>)
    requires BreakOk(em, k) && KernelOk(k)
    ensures Keeps(em, k, Advance(k, dt, order))
    ensures Advance(k, dt, order).pending == k.pending
  {
    AdvanceOk(k, dt, order);
    var k1 := ElapseAll(k, dt);
    if Covers(k1, order) {
      WakeAllFacts(k1, order);
    }
  }

  lemma KeepTimer(em: Em, k: Kernel, fd: Fd, t: TimerFd)
    requires BreakOk(em, k) && KernelOk(k) && fd in k.files && k.files[fd].Timer? && t.ticks == 0
    ensures Keeps(em, k, k.(files := k.files[fd := Timer(t)]))
  {
    QuietTimerOk(k, fd, t);
  }

  // ------------------------------------------------------------ API calls keep

  /** What a polite call guarantees. */
  ghost predicate CallKeeps(s: State, s': State)
  {
    && Keeps(s.em, s.kernel, s'.kernel)
    && HandlesOk(s.em, s'.handles)
    && s'.kernel.pending >= s.kernel.pending
    && s'.log.written - s'.kernel.pending == s.log.written - s.kernel.pending
  }

  ghost predicate Ready(s: State)
  {
    KernelOk(s.kernel) && BreakOk(s.em, s.kernel) && HandlesOk(s.em, s.handles)
  }

  lemma AddKeeps(s: State, ed: Option<Descriptor>, whim: Whim)
    requires Ready(s)
    ensures CallKeeps(s, Add(s, ed, whim).1)
  {
    if ed.Some? && CtlAdd(s.kernel, s.em.queueFd, ed, whim.deny).Some? {
      KeepRegister(s.em, s.kernel, ed.value);
    }
  }

  lemma DeleteKeeps(s: State, fd: Fd)
    requires Ready(s) && fd != s.em.breakRead
    ensures CallKeeps(s, Delete(s, fd).2)
  {
    KeepForget(s.em, s.kernel, fd);
  }

  lemma ModifyKeeps(s: State, fd: Fd, ed: Option<Descriptor>, whim: Whim)
    requires Ready(s) && (ed.Some? ==> ed.value.fd != s.em.breakRead)
    ensures CallKeeps(s, Modify(s, fd, ed, whim).2)
  {
    if ed.Some? && CtlModify(s.kernel, s.em.queueFd, ed, whim.deny).Some? {
      KeepRegister(s.em, s.kernel, ed.value);
    }
  }

  lemma TerminateKeeps(s: State, fault: bool)
    requires Ready(s)
    ensures CallKeeps(s, Terminate(s, fault).1)
  {
    hide HandlesOk, Revents;
    if s.kernel.pending < s.kernel.capacity {
      WriteOk(s.kernel);
      KeepWake(s.em, s.kernel.(pending := s.kernel.pending + 1), s.em.breakRead);
    }
  }

  lemma ClosedKeeps(s: State, fd: Fd)
    requires Ready(s) && fd !in {s.em.breakRead, s.em.breakWrite, s.em.queueFd}
    ensures CallKeeps(s, Closed(s, fd))
  {
    KeepForget(s.em, s.kernel, fd);
  }

  lemma FilledKeeps(s: State, t: nat, h: Handle, newFd: Fd)
    requires Ready(s) && newFd >= 0 && newFd !in s.kernel.files
    requires h.ed == TimerDescriptor(t, newFd)
    ensures CallKeeps(s, Filled(s, t, h, newFd))
  {
    OpenOk(s.kernel, newFd, Timer(TimerFd(false, 0, 0, 0)));
  }

  lemma KeepsChain(s: State, s1: State, s2: State)
    requires s1.em == s.em && CallKeeps(s, s1) && CallKeeps(s1, s2)
    ensures CallKeeps(s, s2)
  {
  }

  lemma {:induction false} AddedKeeps(s: State, t: nat, h: Handle, newFd: Fd, whim: Whim)
    requires Ready(s) && newFd >= 0 && newFd !in s.kernel.files
    requires h.ed == TimerDescriptor(t, newFd)
    ensures var s2 := Add(Filled(s, t, h, newFd), Some(h.ed), whim).1; s2.em == s.em && CallKeeps(s, s2)
  {
    var s1 := Filled(s, t, h, newFd);
    FilledKeeps(s, t, h, newFd);
    AddKeeps(s1, Some(h.ed), whim);
    AddFrame(s1, Some(h.ed), whim);
    KeepsChain(s, s1, Add(s1, Some(h.ed), whim).1);
  }

  lemma RolledBackKeeps(s: State, s2: State, t: nat, newFd: Fd)
    requires Ready(s) && s2.em == s.em && CallKeeps(s, s2) && newFd !in s.kernel.files && newFd >= 0
    ensures CallKeeps(s, WithHandle(Closed(s2, newFd), t, Shredded(t)))
  {
    ClosedKeeps(s2, newFd);
    KeepsChain(s, s2, Closed(s2, newFd));
  }

  lemma {:induction false} CreateKeeps(s: State, t: nat, callback: Option<nat>, data: Data, newFd: Fd, whim: Whim)
    requires Ready(s) && t in s.handles
    ensures CallKeeps(s, Create(s, t, callback, data, newFd, whim).1)
  {
    if callback.Some? && newFd >= 0 && newFd !in s.kernel.files {
      var h := Handle(TimerDescriptor(t, newFd), true, data, callback);
      AddedKeeps(s, t, h, newFd, whim);
      RolledBackKeeps(s, Add(Filled(s, t, h, newFd), Some(h.ed), whim).1, t, newFd);
    }
  }

  lemma SetTimeKeeps(s: State, t: nat, value: Timespec, interval: Timespec)
    requires Ready(s) && t in s.handles
    ensures CallKeeps(s, SetTime(s, t, value, interval).1)
  {
    var fd := s.handles[t].ed.fd;
    if SetTime(s, t, value, interval).0 == Success {
      var v := Nanoseconds(value);
      KeepTimer(s.em, s.kernel, fd, TimerFd(v > 0, s.kernel.now + v, Nanoseconds(interval), 0));
    }
  }

  lemma DestroyKeeps(s: State, t: nat, closeFault: bool)
    requires Ready(s) && t in s.handles
    ensures CallKeeps(s, Destroy(s, t, closeFault).1)
  {
    var fd := s.handles[t].ed.fd;
    var s1 := Delete(s, fd).2;
    DeleteKeeps(s, fd);
    DeleteFrame(s, fd);
    hide Delete, Closed, Keeps;
    ClosedKeeps(s1, fd);
    KeepsChain(s, s1, Closed(s1, fd));
  }

  lemma PolitelyKeeps(s: State, a: Action)
    requires Ready(s) && Polite(s.em, a)
    ensures CallKeeps(s, Call(s, a).1)
  {
    hide Encode;
    match a
    case AddCall(ed, whim) => AddKeeps(s, ed, whim);
    case DeleteCall(fd) => DeleteKeeps(s, fd);
    case ModifyCall(fd, ed, whim) => ModifyKeeps(s, fd, ed, whim);
    case TerminateCall(fault) => TerminateKeeps(s, fault);
    case CreateCall(t, callback, data, newFd, whim) =>
      if t in s.handles { CreateKeeps(s, t, callback, data, newFd, whim); }
    case StartCall(t, msec, isOneShot) =>
      if t in s.handles {
        SetTimeKeeps(s, t, Encode(msec), if isOneShot then Timespec(0, 0) else Encode(msec));
      }
    case StopCall(t) =>
      if t in s.handles { SetTimeKeeps(s, t, Timespec(0, 0), Timespec(0, 0)); }
    case DestroyCall(t, closeFault) =>
      if t in s.handles { DestroyKeeps(s, t, closeFault); }
    case OpenPlain(fd, cond, pollable) =>
      if fd >= 0 && fd !in s.kernel.files { OpenOk(s.kernel, fd, Plain(cond, pollable)); }
    case CloseAny(fd) => KeepForget(s.em, s.kernel, fd);
    case Becomes(fd, cond) =>
      ConditionOk(s.kernel, fd, cond);
      if fd in s.kernel.files && s.kernel.files[fd].Plain? {
        KeepWake(s.em, s.kernel.(files := s.kernel.files[fd := s.kernel.files[fd].(cond := cond)]), fd);
      }
    case Pass(dt, order) => KeepAdvance(s.em, s.kernel, dt, order);
  }

  // ---------------------------------------------------------- steps keep it

  lemma ActSafe(s: State, a: Action)
    requires Safe(s) && Polite(s.em, a)
    ensures Safe(Call(s, a).1)
  {
    CallFrame(s, a);
    PolitelyKeeps(s, a);
  }

  lemma FetchSafe(s: State)
    requires Safe(s) && Enabled(s, Fetch)
    ensures Safe(Apply(s, Fetch))
    ensures forall e :: e in Apply(s, Fetch).todo ==> IsRegistered(s.kernel, e.ed)
  {
    WaitFacts(s.kernel, s.em.maxEvents);
    var b := Batch(s.kernel, s.em.maxEvents);
    forall e | e in b && e.ed.fd == s.em.breakRead
      ensures e.ed == s.em.breakEd && s.kernel.pending > 0
    {
      assert Revents(s.kernel, e.ed.fd) <= Condition(s.kernel, e.ed.fd);
    }
  }

  /** The head of the batch is recognised as the break event exactly when it
      is the machine's own entry. */
  lemma HeadIsBreak(s: State)
    requires Safe(s) && s.todo != []
    ensures AtBreak(s) <==> s.todo[0].ed.fd == s.em.breakRead
    ensures AtBreak(s) ==> s.todo[0].ed == s.em.breakEd && s.kernel.pending > 0 && !s.broke
  {
    assert s.todo[0] in s.todo;
  }

  lemma TailOk(s: State)
    requires Safe(s) && s.todo != []
    ensures TodoOk(s.(todo := s.todo[1..]))
    ensures forall e :: e in s.todo[1..] ==> e.ed.fd != s.todo[0].ed.fd
  {
    var r := s.todo[1..];
    forall e | e in r ensures e in s.todo && e.ed.fd != s.todo[0].ed.fd {
      var i :| 0 <= i < |r| && r[i] == e;
      assert s.todo[i + 1] == e;
    }
  }

  lemma BreakReadEffect(s: State)
    requires Enabled(s, BreakRead)
    ensures s.kernel.pending > 0 && s.todo != []
    ensures Apply(s, BreakRead) == s.(
      kernel := Wake(s.kernel.(pending := s.kernel.pending - 1), s.kernel.pipeWrite),
      todo := s.todo[1..], broke := true, log := s.log.(consumed := s.log.consumed + 1))
  {
  }

  lemma BreakReadSafe(s: State)
    requires Safe(s) && Enabled(s, BreakRead)
    ensures Safe(Apply(s, BreakRead))
  {
    BreakReadEffect(s);
    BreakReadReady(s);
    HeadIsBreak(s);
    TailOk(s);
    hide Apply, Enabled, AtBreak, KernelOk, BreakOk, HandlesOk, Revents;
  }

  lemma BreakReadReady(s: State)
    requires Ready(s) && s.kernel.pending > 0
    ensures Ready(s.(kernel := Wake(s.kernel.(pending := s.kernel.pending - 1), s.kernel.pipeWrite)))
  {
    ReadOk(s.kernel);
    hide KernelOk, HandlesOk, Revents;
  }

  lemma DrainSafe(s: State)
    requires Safe(s) && Enabled(s, Drain)
    ensures Safe(Apply(s, Drain))
    ensures Keeps(s.em, s.kernel, Apply(s, Drain).kernel)
    ensures Apply(s, Drain).kernel.pending == s.kernel.pending
  {
    var fd := s.active.fd;
    if fd in s.kernel.files && s.kernel.files[fd].Timer? {
      KeepTimer(s.em, s.kernel, fd, s.kernel.files[fd].timer.(ticks := 0));
    }
  }

  lemma {:induction false} StepSafe(s: State, step: Step)
    requires Safe(s) && Enabled(s, step) && (step.Act? ==> Polite(s.em, step.action))
    ensures Safe(Apply(s, step))
  {
    hide KernelOk, BreakOk, Polite, Call;
    match step
    case Act(a) => ActSafe(s, a);
    case Fetch => FetchSafe(s);
    case BreakRead => BreakReadSafe(s);
    case ReadError => HeadIsBreak(s);
    case Enter => TailOk(s);
    case Drain => DrainSafe(s);
    case _ =>
  }

  lemma PolitePrefix(em: Em, steps: seq<Step>)
    requires PoliteSteps(em, steps) && steps != []
    ensures PoliteSteps(em, steps[..|steps| - 1])
    ensures steps[|steps| - 1].Act? ==> Polite(em, steps[|steps| - 1].action)
  {
  }

  /** A rule that asks for politeness makes a polite run. */
  lemma {:induction false} RuleIsPolite(rule: (State, Action) -> bool, s: State, steps: seq<Step>)
    requires Obeys(rule, s, steps)
    requires forall s', a :: rule(s', a) ==> Polite(s'.em, a)
    ensures PoliteSteps(s.em, steps)
  {
    hide Polite, Apply;
    if steps != [] {
      RuleIsPolite(rule, s, steps[..|steps| - 1]);
      EmFixed(s, steps[..|steps| - 1]);
    }
  }

  /** The invariant of the whole machine: over every interleaving of the
      running loop with API calls from handlers and other threads. */
  lemma {:induction false} RunSafe(s: State, steps: seq<Step>)
    requires Safe(s) && Follows(s, steps) && PoliteSteps(s.em, steps)
    ensures Safe(ApplyAll(s, steps)) && ApplyAll(s, steps).em == s.em
  {
    EmFixed(s, steps);
    if steps != [] {
      EmFixed(s, steps[..|steps| - 1]);
      PolitePrefix(s.em, steps);
      RunSafe(s, steps[..|steps| - 1]);
      StepSafe(ApplyAll(s, steps[..|steps| - 1]), steps[|steps| - 1]);
    }
  }

  // --------------------------------------------------------- the self-pipe

  /** Bytes written are the bytes still pending, plus one for every run that
      has returned success, plus the one that the current run has read. */
  lemma {:induction false} ByteConservation(s: State, steps: seq<Step>)
    requires Safe(s) && Follows(s, steps) && PoliteSteps(s.em, steps)
    ensures var s' := ApplyAll(s, steps);
      s'.log.written == s'.kernel.pending + s'.log.finished + (if s'.broke then 1 else 0)
  {
    RunSafe(s, steps);
  }

  /** The read of the break byte never finds the pipe empty. */
  lemma {:induction false} BreakReadNeverFails(s: State, steps: seq<Step>)
    requires Safe(s) && Follows(s, steps) && PoliteSteps(s.em, steps)
    ensures !Enabled(ApplyAll(s, steps), ReadError)
    ensures AtBreak(ApplyAll(s, steps)) && ApplyAll(s, steps).active.Idle? ==>
      Enabled(ApplyAll(s, steps), BreakRead)
  {
    RunSafe(s, steps);
    var s' := ApplyAll(s, steps);
    if AtBreak(s') {
      HeadIsBreak(s');
    }
  }

  lemma {:induction false} NoReadError(s: State, steps: seq<Step>)
    requires Safe(s) && Follows(s, steps) && PoliteSteps(s.em, steps)
    ensures ReadError !in steps
  {
    if steps != [] {
      var init := steps[..|steps| - 1];
      PolitePrefix(s.em, steps);
      NoReadError(s, init);
      BreakReadNeverFails(s, init);
      assert steps == init + [steps[|steps| - 1]];
    }
  }

  lemma {:induction false} ReturnsCount(s: State, steps: seq<Step>)
    requires Return !in steps
    ensures ApplyAll(s, steps).log.finished == s.log.finished
  {
    if steps != [] {
      var init := steps[..|steps| - 1];
      assert forall x :: x in init ==> x in steps;
      ReturnsCount(s, init);
      assert steps[|steps| - 1] in steps;
      match steps[|steps| - 1] {
        case Act(a) => CallFrame(ApplyAll(s, init), a);
        case _ =>
      }
    }
  }

  /** event_machine_terminate() succeeds at any moment of any run, and then a
      byte is in the pipe and the break entry is queued: also when the pipe
      was full, when exactly nothing is written. */
  lemma {:induction false} TerminateIsNotLost(s: State, steps: seq<Step>)
    requires Safe(s) && Follows(s, steps) && PoliteSteps(s.em, steps)
    ensures var s1 := ApplyAll(s, steps);
      var (r, s') := Terminate(s1, false);
      && r == Success
      && s'.kernel.pending > 0
      && s'.em.breakRead in s'.kernel.ready
      && s'.log.written == s1.log.written + (if s1.kernel.pending < s1.kernel.capacity then 1 else 0)
  {
    RunSafe(s, steps);
    var s1 := ApplyAll(s, steps);
    TerminateKeeps(s1, false);
    BreakIsQueued(Terminate(s1, false).1);
  }

  lemma BreakIsQueued(s: State)
    requires KernelOk(s.kernel) && BreakOk(s.em, s.kernel) && s.kernel.pending > 0
    ensures s.em.breakRead in s.kernel.ready && Revents(s.kernel, s.em.breakRead) == {In}
  {
    var k, fd := s.kernel, s.em.breakRead;
    assert In in Revents(k, fd);
    assert IsLevel(k, fd);
  }

  /** Exactly one interest entry has the break descriptor; it is the internal
      one; nobody else can register it; and the handler calls that have been
      made since are never for it. */
  lemma {:induction false} InternalEntryIsPrivate(s: State, steps: seq<Step>, ed: Descriptor, whim: Whim)
    requires Safe(s) && Follows(s, steps) && PoliteSteps(s.em, steps)
    requires ed.fd == s.em.breakRead
    ensures var s' := ApplyAll(s, steps);
      && s.em.breakRead in s'.kernel.interest
      && s'.kernel.interest[s.em.breakRead]
           == Descriptor(BreakAddr, s.em.breakRead, {In}, NullData, NullHandler)
      && (forall fd :: fd in s'.kernel.interest && s'.kernel.interest[fd].fd == s.em.breakRead ==> fd == s.em.breakRead)
      && Add(s', Some(ed), whim) == (ErrorEventCtl, s')
  {
    RunSafe(s, steps);
  }

  lemma {:induction false} NeverCallsInternalHandler(s: State, steps: seq<Step>)
    requires Safe(s) && Follows(s, steps) && PoliteSteps(s.em, steps)
    requires forall d :: d in s.log.trace ==> d.event.ed.fd != s.em.breakRead
    ensures forall d :: d in ApplyAll(s, steps).log.trace ==> d.event.ed.fd != s.em.breakRead
  {
    if steps != [] {
      var init := steps[..|steps| - 1];
      PolitePrefix(s.em, steps);
      NeverCallsInternalHandler(s, init);
      RunSafe(s, init);
      var s1 := ApplyAll(s, init);
      match steps[|steps| - 1]
      case Act(a) => CallFrame(s1, a);
      case Enter => HeadIsBreak(s1);
      case _ =>
    }
  }
}
