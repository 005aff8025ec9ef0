/** The running event machine as a protocol of small steps. The steps of
    event_machine_run(), event_machine_run_once() and
    internal_timeout_handler() come in the order that the control state
    prescribes; API calls, made by handlers or by other threads, and changes
    in the environment may come anywhere between them. */
module Protocol {
  import opened Epoll
  import opened Machine
  import opened Timers

  datatype Action =
    | AddCall(ed: Option<Descriptor>, whim: Whim)
    | DeleteCall(fd: Fd)
    | ModifyCall(fd: Fd, ed: Option<Descriptor>, whim: Whim)
    | TerminateCall(fault: bool)
    | CreateCall(timer: nat, callback: Option<nat>, data: Data, newFd: Fd, whim: Whim)
    | StartCall(timer: nat, msec: int, isOneShot: bool)
    | StopCall(timer: nat)
    | DestroyCall(timer: nat, closeFault: bool)
    | OpenPlain(fd: Fd, cond: set<Flag>, pollable: bool)
    | CloseAny(fd: Fd)
    | Becomes(fd: Fd, cond: set<Flag>)
    | Pass(dt: nat, order: seq<Fd>)

  datatype Step =
    | Act(action: Action)
    | Fetch        // epoll_wait returns a batch
    | BreakRead    // the break byte is read
    | ReadError    // the read of the break byte fails
    | Enter        // a handler is called for the next event
    | Drain        // internal_timeout_handler() reads the timer
    | Callback     // one iteration of its loop
    | Leave        // the handler returns
    | Return       // event_machine_run() returns EM_SUCCESS

  /** The result of an API call and the state after it. */
  function Call(s: State, a: Action): (Code, State)
  {
    match a
    case AddCall(ed, whim) => Add(s, ed, whim)
    case DeleteCall(fd) => var (r, _, s') := Delete(s, fd); (r, s')
    case ModifyCall(fd, ed, whim) => var (r, _, s') := Modify(s, fd, ed, whim); (r, s')
    case TerminateCall(fault) => Terminate(s, fault)
    case CreateCall(t, callback, data, newFd, whim) =>
      if t in s.handles then Create(s, t, callback, data, newFd, whim) else (ErrorTimerNull, s)
    case StartCall(t, msec, isOneShot) =>
      if t in s.handles then Start(s, t, msec, isOneShot) else (ErrorTimerNull, s)
    case StopCall(t) => if t in s.handles then Stop(s, t) else (ErrorTimerNull, s)
    case DestroyCall(t, closeFault) =>
      if t in s.handles then Destroy(s, t, closeFault) else (ErrorTimerNull, s)
    case OpenPlain(fd, cond, pollable) =>
      if fd >= 0 && fd !in s.kernel.files
      then (Success, s.(kernel := OpenFile(s.kernel, fd, Plain(cond, pollable))))
      else (ErrorBadFd, s)
    case CloseAny(fd) =>
      if fd in s.kernel.files then (Success, s.(kernel := CloseFd(s.kernel, fd))) else (ErrorBadFd, s)
    case Becomes(fd, cond) => (Success, s.(kernel := SetCondition(s.kernel, fd, cond)))
    case Pass(dt, order) => (Success, s.(kernel := Advance(s.kernel, dt, order)))
  }

  /** What the machine finds when it follows a descriptor pointer: timer
      handles are in memory that the library rewrites, other descriptors do
      not change while they are registered. */
  function Deref(s: State, ed: Descriptor): Descriptor
  {
    if ed.addr.TimerAddr? && ed.addr.timer in s.handles then s.handles[ed.addr.timer].ed else ed
  }

  predicate IsRegistered(k: Kernel, ed: Descriptor)
  {
    ed.fd in k.interest && k.interest[ed.fd] == ed
  }

  predicate AtBreak(s: State)
  {
    s.todo != [] && Deref(s, s.todo[0].ed).fd == s.em.breakRead
  }

  function Entered(ed: Descriptor): Active
  {
    match ed.handler
    case NullHandler => Idle
    case UserHandler(_) => InUser(ed.fd)
    case TimeoutHandler => if ed.data.TimerData? then Expired(ed.data.timer, ed.fd) else Idle
  }

  function Gen(s: State, t: nat): nat
  {
    if t in s.log.ledger then s.log.ledger[t].gen else 0
  }

  /** One callback of a replay, entered in the ledger. */
  function Counted(l: Ledger, gen: nat): Ledger
  {
    if l.gen == gen then l.(calls := l.calls + 1) else l.(late := l.late + 1)
  }

  function Fault(s: State): State
  {
    s.(log := s.log.(faults := s.log.faults + 1))
  }

  predicate Enabled(s: State, step: Step)
  {
    match step
    case Act(_) => true
    case Fetch => s.active.Idle? && s.todo == [] && !s.broke && s.em.maxEvents > 0
    case BreakRead => s.active.Idle? && AtBreak(s) && ReadByte(s.kernel, s.em.breakRead).Some?
    case ReadError => s.active.Idle? && AtBreak(s) && ReadByte(s.kernel, s.em.breakRead).None?
    case Enter => s.active.Idle? && s.todo != [] && !AtBreak(s)
    case Drain => s.active.Expired?
    case Callback => s.active.Replaying? && s.active.remaining > 0
    case Leave => s.active.InUser? || (s.active.Replaying? && s.active.remaining == 0)
    case Return => s.active.Idle? && s.todo == [] && s.broke
  }

  function Drained(s: State): State
    requires s.active.Expired?
  {
    var t, fd := s.active.timer, s.active.fd;
    if fd in s.kernel.files && s.kernel.files[fd].Timer?
    then s.(kernel := DrainTimer(s.kernel, fd),
            active := Replaying(t, s.kernel.files[fd].timer.ticks, Gen(s, t)))
    else Fault(s).(active := Replaying(t, 0, 0))
  }

  function CalledBack(s: State): State
    requires s.active.Replaying? && s.active.remaining > 0
  {
    var t := s.active.timer;
    var s' := s.(active := s.active.(remaining := s.active.remaining - 1));
    if t in s.handles && s.handles[t].callback.Some? && t in s.log.ledger
    then s'.(log := s.log.(ledger := s.log.ledger[t := Counted(s.log.ledger[t], s.active.gen)]))
    else Fault(s')
  }

  function EnteredState(s: State): State
    requires s.todo != []
  {
    var e := s.todo[0];
    var ed := Deref(s, e.ed);
    var d := Dispatched(e, ed == e.ed && IsRegistered(s.kernel, ed));
    var s' := s.(todo := s.todo[1..], active := Entered(ed), log := s.log.(trace := s.log.trace + [d]));
    if Entered(ed).Idle? then Fault(s') else s'
  }

  function Apply(s: State, step: Step): State
  {
    match step
    case Act(a) => Call(s, a).1
    case Fetch =>
      if s.em.maxEvents < 0 then s
      else
        var b := Batch(s.kernel, s.em.maxEvents);
        s.(kernel := Waited(s.kernel, s.em.maxEvents), todo := b, log := s.log.(fetched := s.log.fetched + b))
    case BreakRead =>
      (match ReadByte(s.kernel, s.em.breakRead)
       case Some(k) =>
         if s.todo == [] then s
         else s.(kernel := k, todo := s.todo[1..], broke := true, log := s.log.(consumed := s.log.consumed + 1))
       case None => s)
    case ReadError => s.(todo := [], broke := false)
    case Enter => if s.todo == [] then s else EnteredState(s)
    case Drain => if s.active.Expired? then Drained(s) else s
    case Callback => if s.active.Replaying? && s.active.remaining > 0 then CalledBack(s) else s
    case Leave => s.(active := Idle)
    case Return => s.(broke := false, log := s.log.(finished := s.log.finished + 1))
  }

  function ApplyAll(s: State, steps: seq<Step>): State
  {
    if steps == [] then s else Apply(ApplyAll(s, steps[..|steps| - 1]), steps[|steps| - 1])
  }

  /** The steps are taken in an order that the code allows. */
  predicate Follows(s: State, steps: seq<Step>)
  {
    steps == [] ||
    (var init := steps[..|steps| - 1];
     Follows(s, init) && Enabled(ApplyAll(s, init), steps[|steps| - 1]))
  }

  /** `steps` lead from one state to another in an order that the code allows. */
  predicate Executes(s: State, steps: seq<Step>, s': State)
  {
    Follows(s, steps) && ApplyAll(s, steps) == s'
  }

  lemma Extend(s: State, steps: seq<Step>, s': State, step: Step)
    requires Executes(s, steps, s') && Enabled(s', step)
    ensures Executes(s, steps + [step], Apply(s', step))
  {
    assert (steps + [step])[..|steps + [step]| - 1] == steps;
  }

  lemma Chain(s: State, a: seq<Step>, s1: State, b: seq<Step>, s2: State)
    requires Executes(s, a, s1) && Executes(s1, b, s2)
    ensures Executes(s, a + b, s2)
  {
    Concat(s, a, b);
  }

  /** Every API call and environment step is one that `rule` permits in the
      state it is made in. */
  predicate Obeys(rule: (State, Action) -> bool, s: State, steps: seq<Step>)
  {
    steps == [] ||
    (var init, last := steps[..|steps| - 1], steps[|steps| - 1];
     Obeys(rule, s, init) && (last.Act? ==> rule(ApplyAll(s, init), last.action)))
  }

  lemma {:induction false} Concat(s: State, a: seq<Step>, b: seq<Step>)
    ensures ApplyAll(s, a + b) == ApplyAll(ApplyAll(s, a), b)
    ensures Follows(s, a + b) <==> Follows(s, a) && Follows(ApplyAll(s, a), b)
  {
    if b == [] {
      assert a + b == a;
    } else {
      var b' := b[..|b| - 1];
      assert (a + b)[..|a + b| - 1] == a + b';
      Concat(s, a, b');
    }
  }

  /** API calls leave the machine's fixed fields and its control state alone. */
  ghost predicate Framed(s: State, s': State)
  {
    && s'.em == s.em && s'.todo == s.todo && s'.active == s.active && s'.broke == s.broke
    && s'.handles.Keys == s.handles.Keys
    && s'.log.trace == s.log.trace && s'.log.fetched == s.log.fetched
    && s'.log.consumed == s.log.consumed && s'.log.finished == s.log.finished
    && (forall t :: t in s.log.ledger ==> t in s'.log.ledger)
  }

  lemma AddFrame(s: State, ed: Option<Descriptor>, whim: Whim)
    ensures var s' := Add(s, ed, whim).1; s' == s.(kernel := s'.kernel, storage := s'.storage)
  {
  }

  lemma DeleteFrame(s: State, fd: Fd)
    ensures var s' := Delete(s, fd).2; s' == s.(kernel := s'.kernel, storage := s'.storage)
  {
  }

  lemma ModifyFrame(s: State, fd: Fd, ed: Option<Descriptor>, whim: Whim)
    ensures var s' := Modify(s, fd, ed, whim).2; s' == s.(kernel := s'.kernel, storage := s'.storage)
  {
  }

  lemma CreateFrame(s: State, t: nat, callback: Option<nat>, data: Data, newFd: Fd, whim: Whim)
    requires t in s.handles
    ensures Framed(s, Create(s, t, callback, data, newFd, whim).1)
  {
    if callback.Some? && newFd >= 0 && newFd !in s.kernel.files {
      var s1 := Filled(s, t, Handle(TimerDescriptor(t, newFd), true, data, callback), newFd);
      hide Filled, Enrolled, Framed;
      FilledFrame(s, t, Handle(TimerDescriptor(t, newFd), true, data, callback), newFd);
      EnrolledFrame(s1, t, newFd, whim);
      FramedTwice(s, s1, Enrolled(s1, t, newFd, whim).1);
    }
  }

  lemma FramedTwice(s: State, s1: State, s2: State)
    requires Framed(s, s1) && Framed(s1, s2)
    ensures Framed(s, s2)
  {
  }

  lemma FilledFrame(s: State, t: nat, h: Handle, newFd: Fd)
    requires t in s.handles
    ensures Framed(s, Filled(s, t, h, newFd)) && t in Filled(s, t, h, newFd).handles
  {
  }

  lemma EnrolledFrame(s: State, t: nat, newFd: Fd, whim: Whim)
    requires t in s.handles
    ensures Framed(s, Enrolled(s, t, newFd, whim).1)
  {
    AddFrame(s, Some(TimerDescriptor(t, newFd)), whim);
    hide Add;
  }

  lemma SetTimeFrame(s: State, t: nat, value: Timespec, interval: Timespec)
    requires t in s.handles
    ensures Framed(s, SetTime(s, t, value, interval).1)
  {
  }

  lemma DestroyFrame(s: State, t: nat, closeFault: bool)
    requires t in s.handles
    ensures Framed(s, Destroy(s, t, closeFault).1)
  {
    DeleteFrame(s, s.handles[t].ed.fd);
  }

  lemma {:induction false} CallFrame(s: State, a: Action)
    ensures Framed(s, Call(s, a).1)
  {
    hide Encode;
    match a
    case AddCall(ed, whim) => AddFrame(s, ed, whim);
    case DeleteCall(fd) => DeleteFrame(s, fd);
    case ModifyCall(fd, ed, whim) => ModifyFrame(s, fd, ed, whim);
    case TerminateCall(_) =>
    case CreateCall(t, callback, data, newFd, whim) =>
      if t in s.handles { CreateFrame(s, t, callback, data, newFd, whim); }
    case StartCall(t, msec, isOneShot) =>
      if t in s.handles {
        SetTimeFrame(s, t, Encode(msec), if isOneShot then Timespec(0, 0) else Encode(msec));
      }
    case StopCall(t) =>
      if t in s.handles { SetTimeFrame(s, t, Timespec(0, 0), Timespec(0, 0)); }
    case DestroyCall(t, closeFault) =>
      if t in s.handles { DestroyFrame(s, t, closeFault); }
    case OpenPlain(_, _, _) =>
    case CloseAny(_) =>
    case Becomes(_, _) =>
    case Pass(_, _) =>
  }

  /** The fixed fields stay fixed. */
  lemma {:induction false} EmFixed(s: State, steps: seq<Step>)
    ensures ApplyAll(s, steps).em == s.em
  {
    if steps != [] {
      EmFixed(s, steps[..|steps| - 1]);
      StepFixed(ApplyAll(s, steps[..|steps| - 1]), steps[|steps| - 1]);
    }
  }

  lemma StepFixed(s: State, step: Step)
    ensures Apply(s, step).em == s.em
  {
    if step.Act? {
      CallFrame(s, step.action);
    }
  }
}
