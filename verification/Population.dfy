/** Which entries the interest set holds while timers are created, started,
    stopped and destroyed among user descriptors, and that a handler call
    always finds a descriptor that is still registered. */
module Population {
  import opened Epoll
  import opened ReadyList
  import opened Machine
  import opened Timers
  import opened Protocol
  import opened TimerLife
  import opened BreakLoop
  import opened Rounds

  predicate IsUser(ed: Descriptor)
  {
    ed.addr.UserAddr? && ed.handler.UserHandler?
  }

  predicate IsLive(h: Handle)
  {
    h.ed.fd >= 0
  }

  predicate TimerHolds(k: Kernel, fd: Fd)
  {
    fd in k.interest && k.interest[fd].addr.TimerAddr?
  }

  /** Users register their own descriptors, with a handler; they reach a
      timer's file descriptor only through the timer functions; they create a
      timer in a handle that is not in use, and destroy one that is, not while
      it still has callbacks to make; close() does not fail. */
  predicate Orderly(s: State, a: Action)
  {
    Polite(s.em, a) &&
    match a
    case AddCall(ed, _) => ed.Some? ==> IsUser(ed.value)
    case DeleteCall(fd) => !TimerHolds(s.kernel, fd)
    case ModifyCall(fd, ed, _) => (ed.Some? ==> IsUser(ed.value) && ed.value.fd == fd) && !TimerHolds(s.kernel, fd)
    case CloseAny(fd) => !TimerHolds(s.kernel, fd)
    case CreateCall(t, _, _, _, _) => t in s.handles ==> !IsLive(s.handles[t])
    case DestroyCall(t, closeFault) =>
      t in s.handles && IsLive(s.handles[t]) && !closeFault
      && Remaining(s, t) == 0 && !(s.active.Expired? && s.active.timer == t)
    case _ => true
  }

  // --------------------------------------------------------------- invariant

  /** The entry of a live timer: its own handle's descriptor, on a timerfd. */
  ghost predicate TimerEntry(k: Kernel, t: nat, h: Handle)
  {
    && h.ed == TimerDescriptor(t, h.ed.fd)
    && h.hasMachine && h.callback.Some?
    && IsRegistered(k, h.ed)
    && h.ed.fd in k.files && k.files[h.ed.fd].Timer?
  }

  /** The interest set is the break entry, user entries, and one entry for
      every live timer, which points at the timer's own handle. */
  ghost predicate Populated(em: Em, k: Kernel, handles: map<nat, Handle>)
  {
    && (forall t :: t in handles && IsLive(handles[t]) ==> TimerEntry(k, t, handles[t]))
    && (forall fd :: fd in k.interest ==>
          match k.interest[fd].addr
          case BreakAddr => fd == em.breakRead
          case UserAddr(_) => IsUser(k.interest[fd])
          case TimerAddr(t) => t in handles && IsLive(handles[t]) && handles[t].ed == k.interest[fd])
  }

  /** A removing storage knows every live timer. */
  ghost predicate TimersStored(st: Storage, handles: map<nat, Handle>)
  {
    st.Full? ==> forall t :: t in handles && IsLive(handles[t]) ==> handles[t].ed.fd in st.entries
  }

  /** The handler that runs belongs to a timer that exists. */
  ghost predicate ActiveOk(s: State)
  {
    match s.active
    case Expired(t, fd) => t in s.handles && IsLive(s.handles[t]) && s.handles[t].ed.fd == fd
    case Replaying(t, r, _) => r > 0 ==> t in s.handles && IsLive(s.handles[t])
    case _ => true
  }

  ghost predicate Sound(s: State)
  {
    && Safe(s)
    && Populated(s.em, s.kernel, s.handles)
    && TimersStored(s.storage, s.handles)
    && ActiveOk(s)
    && (forall t :: t in s.handles ==> t in s.log.ledger)
  }

  /** Timer `t` is as it was: handle, timer state, registration, bookkeeping. */
  ghost predicate Undisturbed(s: State, s': State, t: nat)
    requires t in s.handles && s.handles[t].ed.fd in s.kernel.files && t in s.log.ledger
  {
    var fd := s.handles[t].ed.fd;
    && t in s'.handles && s'.handles[t] == s.handles[t]
    && fd in s'.kernel.files && s'.kernel.files[fd] == s.kernel.files[fd]
    && (IsRegistered(s.kernel, s.handles[t].ed) ==> IsRegistered(s'.kernel, s.handles[t].ed))
    && t in s'.log.ledger && s'.log.ledger[t] == s.log.ledger[t]
    && s'.kernel.now == s.kernel.now
  }

  ghost predicate OthersUndisturbed(s: State, s': State, but: set<nat>)
    requires Sound(s)
  {
    forall t :: t in s.handles && IsLive(s.handles[t]) && t !in but ==> Undisturbed(s, s', t)
  }

  // -------------------------------------------------------------- API calls

  lemma AddPopulates(s: State, ed: Option<Descriptor>, whim: Whim)
    requires Sound(s) && (ed.Some? ==> IsUser(ed.value))
    ensures var s' := Add(s, ed, whim).1;
      Populated(s.em, s'.kernel, s'.handles) && OthersUndisturbed(s, s', {})
  {
    hide KernelOk, TodoOk, Bytes, HandlesOk, TimersStored, ActiveOk, Revents;
  }

  lemma DeletePopulates(s: State, fd: Fd)
    requires Sound(s) && !TimerHolds(s.kernel, fd)
    ensures var s' := Delete(s, fd).2;
      Populated(s.em, s'.kernel, s'.handles) && OthersUndisturbed(s, s', {})
  {
  }

  lemma RegisterPopulates(s: State, k: Kernel, st: Storage, ed: Descriptor)
    requires Sound(s) && !TimerHolds(s.kernel, ed.fd) && IsUser(ed)
    requires k.files == s.kernel.files && k.interest == s.kernel.interest[ed.fd := ed] && k.now == s.kernel.now
    ensures Populated(s.em, k, s.handles) && OthersUndisturbed(s, s.(kernel := k, storage := st), {})
  {
  }

  lemma ModifyPopulates(s: State, fd: Fd, ed: Option<Descriptor>, whim: Whim)
    requires Sound(s) && !TimerHolds(s.kernel, fd)
    requires ed.Some? ==> IsUser(ed.value) && ed.value.fd == fd
    ensures var s' := Modify(s, fd, ed, whim).2;
      Populated(s.em, s'.kernel, s'.handles) && OthersUndisturbed(s, s', {})
  {
    var s' := Modify(s, fd, ed, whim).2;
    ModifyFrame(s, fd, ed, whim);
    if Open(s.kernel, s.em.queueFd) && Open(s.kernel, fd)
      && CtlModify(s.kernel, s.em.queueFd, ed, whim.deny).Some? {
      RegisterPopulates(s, s'.kernel, s'.storage, ed.value);
    } else {
      assert s' == s;
    }
  }

  lemma ClosePopulates(s: State, fd: Fd)
    requires Sound(s) && !TimerHolds(s.kernel, fd)
    ensures var s' := Closed(s, fd);
      Populated(s.em, s'.kernel, s'.handles) && OthersUndisturbed(s, s', {})
  {
  }

  lemma NewTimerPopulates(s: State, k: Kernel, t: nat, h: Handle)
    requires Sound(s) && t in s.handles && !IsLive(s.handles[t]) && h.ed.fd >= 0 && h.ed.fd !in s.kernel.files
    requires k.files == s.kernel.files[h.ed.fd := Timer(FRESH_TIMER)]
    requires k.interest == s.kernel.interest[h.ed.fd := h.ed]
    requires h.ed == TimerDescriptor(t, h.ed.fd) && h.hasMachine && h.callback.Some?
    ensures Populated(s.em, k, s.handles[t := h])
  {
    FreshIsAbsent(s.kernel, h.ed.fd);
    hide Safe, TimersStored, ActiveOk, Without;
    assert TimerEntry(k, t, h);
  }

  lemma NewTimerDisturbsNone(s: State, s': State, t: nat, fd: Fd)
    requires Sound(s) && t in s.handles && !IsLive(s.handles[t]) && fd !in s.kernel.files
    requires s'.kernel.files == s.kernel.files[fd := Timer(FRESH_TIMER)] && s'.kernel.now == s.kernel.now
    requires s'.kernel.interest == s.kernel.interest[fd := TimerDescriptor(t, fd)]
    requires t in s'.handles && s'.handles == s.handles[t := s'.handles[t]]
    requires t in s'.log.ledger && s'.log.ledger == s.log.ledger[t := s'.log.ledger[t]]
    ensures OthersUndisturbed(s, s', {})
  {
    FreshIsAbsent(s.kernel, fd);
    hide Safe, TimersStored, ActiveOk, Without;
  }

  lemma UnusedHandlePopulates(s: State, h: Handle, t: nat)
    requires Sound(s) && t in s.handles && !IsLive(s.handles[t]) && !IsLive(h)
    ensures Populated(s.em, s.kernel, s.handles[t := h])
    ensures OthersUndisturbed(s, s.(handles := s.handles[t := h]), {})
  {
  }

  lemma {:induction false} CreatePopulates(s: State, t: nat, callback: Option<nat>, data: Data, newFd: Fd, whim: Whim)
    requires Sound(s) && t in s.handles && !IsLive(s.handles[t])
    ensures var s' := Create(s, t, callback, data, newFd, whim).1;
      Populated(s.em, s'.kernel, s'.handles) && OthersUndisturbed(s, s', {})
  {
    CreateOutcome(s, t, callback, data, newFd, whim);
    var (r, s') := Create(s, t, callback, data, newFd, whim);
    if r == Success {
      NewTimerPopulates(s, s'.kernel, t, s'.handles[t]);
      NewTimerDisturbsNone(s, s', t, newFd);
    } else {
      UnusedHandlePopulates(s, s'.handles[t], t);
    }
  }

  lemma SetTimePopulates(s: State, t: nat, value: Timespec, interval: Timespec)
    requires Sound(s) && t in s.handles
    ensures var s' := SetTime(s, t, value, interval).1;
      Populated(s.em, s'.kernel, s'.handles) && OthersUndisturbed(s, s', {t})
  {
  }

  /** A live timer is destroyed successfully and completely. */
  lemma {:induction false} DestroyShreds(s: State, t: nat)
    requires Sound(s) && t in s.handles && IsLive(s.handles[t])
    ensures var (r, s') := Destroy(s, t, false);
      && r == Success
      && s'.kernel == CloseFd(s.kernel, s.handles[t].ed.fd)
      && s' == s.(kernel := s'.kernel, storage := s'.storage, handles := s.handles[t := Shredded(t)])
  {
    DestroyOutcome(s, t, false);
    assert TimerEntry(s.kernel, t, s.handles[t]);
    hide Destroy, KernelOk, TodoOk, Bytes, HandlesOk, ActiveOk;
  }

  lemma DestroyPopulates(s: State, t: nat)
    requires Sound(s) && t in s.handles && IsLive(s.handles[t])
    ensures var s' := Destroy(s, t, false).1;
      Populated(s.em, s'.kernel, s'.handles) && OthersUndisturbed(s, s', {t})
  {
    DestroyShreds(s, t);
    hide Destroy, TimersStored, ActiveOk, TodoOk, Bytes, Without;
  }

  lemma PassPopulates(s: State, dt: nat, order: seq<Fd>)
    requires Sound(s)
    ensures var s' := Call(s, Pass(dt, order)).1;
      Populated(s.em, s'.kernel, s'.handles)
  {
    WakeAllFacts(ElapseAll(s.kernel, dt), order);
    PassInterest(s.kernel, dt, order);
  }

  // -------------------------------------------------------- every step keeps

  /** The timer that an action is about, if any. */
  function Target(a: Action): set<nat>
  {
    match a
    case CreateCall(t, _, _, _, _) => {t}
    case StartCall(t, _, _) => {t}
    case StopCall(t) => {t}
    case DestroyCall(t, _) => {t}
    case _ => {}
  }

  lemma TerminatePopulates(s: State, fault: bool)
    requires Sound(s)
    ensures var s' := Terminate(s, fault).1;
      Populated(s.em, s'.kernel, s'.handles) && OthersUndisturbed(s, s', {})
  {
  }

  lemma OpenPopulates(s: State, fd: Fd, cond: set<Flag>, pollable: bool)
    requires Sound(s)
    ensures var s' := Call(s, OpenPlain(fd, cond, pollable)).1;
      Populated(s.em, s'.kernel, s'.handles) && OthersUndisturbed(s, s', {})
  {
  }

  lemma BecomesPopulates(s: State, fd: Fd, cond: set<Flag>)
    requires Sound(s)
    ensures var s' := Call(s, Becomes(fd, cond)).1;
      Populated(s.em, s'.kernel, s'.handles) && OthersUndisturbed(s, s', {})
  {
  }

  /** Every orderly call keeps the population, and only the timer functions
      called on a timer, and the passing of time, touch that timer. */
  lemma {:induction false} CallPopulates(s: State, a: Action)
    requires Sound(s) && Orderly(s, a)
    ensures var s' := Call(s, a).1;
      && Populated(s.em, s'.kernel, s'.handles)
      && (!a.Pass? ==> OthersUndisturbed(s, s', Target(a)))
  {
    hide Encode;
    match a
    case AddCall(ed, whim) => AddPopulates(s, ed, whim);
    case DeleteCall(fd) => DeletePopulates(s, fd);
    case ModifyCall(fd, ed, whim) => ModifyPopulates(s, fd, ed, whim);
    case TerminateCall(fault) => TerminatePopulates(s, fault);
    case CreateCall(t, callback, data, newFd, whim) =>
      if t in s.handles { CreatePopulates(s, t, callback, data, newFd, whim); }
    case StartCall(t, msec, isOneShot) =>
      if t in s.handles {
        SetTimePopulates(s, t, Encode(msec), if isOneShot then Timespec(0, 0) else Encode(msec));
      }
    case StopCall(t) =>
      if t in s.handles { SetTimePopulates(s, t, Timespec(0, 0), Timespec(0, 0)); }
    case DestroyCall(t, _) => DestroyPopulates(s, t);
    case OpenPlain(fd, cond, pollable) => OpenPopulates(s, fd, cond, pollable);
    case CloseAny(fd) => ClosePopulates(s, fd);
    case Becomes(fd, cond) => BecomesPopulates(s, fd, cond);
    case Pass(dt, order) => PassPopulates(s, dt, order);
  }

  /** A removing storage drops at most the entry of `fd`. */
  predicate DropsOnly(st: Storage, st': Storage, fd: Fd)
  {
    st.Full? ==> st'.Full? && forall x :: x in st.entries && x != fd ==> x in st'.entries
  }

  lemma DropsNoTimer(s: State, st: Storage, fd: Fd)
    requires Sound(s) && !TimerHolds(s.kernel, fd) && DropsOnly(s.storage, st, fd) && (st.Full? ==> s.storage.Full?)
    ensures TimersStored(st, s.handles)
  {
    hide Safe, ActiveOk;
  }

  lemma UserCallStored(s: State, a: Action)
    requires Sound(s) && Orderly(s, a) && (a.AddCall? || a.DeleteCall? || a.ModifyCall?)
    ensures TimersStored(Call(s, a).1.storage, Call(s, a).1.handles)
  {
    assert !TimerHolds(s.kernel, s.em.breakRead);
    hide Sound, TimersStored, CtlAdd, CtlDelete, CtlModify;
    match a
    case AddCall(ed, whim) =>
      AddFrame(s, ed, whim);
      DropsNoTimer(s, Add(s, ed, whim).1.storage, s.em.breakRead);
    case DeleteCall(fd) =>
      DeleteFrame(s, fd);
      DropsNoTimer(s, Delete(s, fd).2.storage, fd);
    case ModifyCall(fd, ed, whim) =>
      ModifyFrame(s, fd, ed, whim);
      DropsNoTimer(s, Modify(s, fd, ed, whim).2.storage, fd);
  }

  lemma {:induction false} CreateStored(s: State, t: nat, callback: Option<nat>, data: Data, newFd: Fd, whim: Whim)
    requires Sound(s) && t in s.handles && !IsLive(s.handles[t])
    ensures var s' := Create(s, t, callback, data, newFd, whim).1;
      TimersStored(s'.storage, s'.handles)
  {
    CreateOutcome(s, t, callback, data, newFd, whim);
    hide Populated, ActiveOk, Create;
  }

  lemma {:induction false} DestroyStored(s: State, t: nat)
    requires Sound(s) && t in s.handles && IsLive(s.handles[t])
    ensures var s' := Destroy(s, t, false).1;
      TimersStored(s'.storage, s'.handles)
  {
    DestroyOutcome(s, t, false);
    assert TimerEntry(s.kernel, t, s.handles[t]);
    hide ActiveOk, Destroy, TodoOk, Bytes;
  }

  lemma {:induction false} CallStored(s: State, a: Action)
    requires Sound(s) && Orderly(s, a)
    ensures TimersStored(Call(s, a).1.storage, Call(s, a).1.handles)
  {
    hide Encode;
    match a
    case AddCall(_, _) => UserCallStored(s, a);
    case DeleteCall(_) => UserCallStored(s, a);
    case ModifyCall(_, _, _) => UserCallStored(s, a);
    case CreateCall(t, callback, data, newFd, whim) =>
      if t in s.handles { CreateStored(s, t, callback, data, newFd, whim); }
    case DestroyCall(t, _) => DestroyStored(s, t);
    case _ => hide Safe, Populated, ActiveOk, Advance, Wake;
  }

  /** Calls leave handle and ledger of every timer alone that they are not
      about. */
  ghost predicate SparesMemory(s: State, s': State, but: set<nat>)
  {
    && (forall t :: t in s'.handles && t !in but ==> t in s.handles && s'.handles[t] == s.handles[t])
    && (forall t :: t in s.log.ledger ==> t in s'.log.ledger)
    && (forall t :: t in s.log.ledger && t !in but ==> s'.log.ledger[t] == s.log.ledger[t])
  }

  lemma SettingKeepsHandles(s: State, a: Action)
    requires a.StartCall? || a.StopCall?
    ensures Call(s, a).1.handles == s.handles
  {
    hide Encode;
  }

  lemma SetTimeSparesMemory(s: State, t: nat, value: Timespec, interval: Timespec)
    requires t in s.handles
    ensures SparesMemory(s, SetTime(s, t, value, interval).1, {t})
  {
  }

  lemma {:induction false} CreateSparesMemory(
      s: State, t: nat, callback: Option<nat>, data: Data, newFd: Fd, whim: Whim)
    requires KernelOk(s.kernel) && t in s.handles
    ensures SparesMemory(s, Create(s, t, callback, data, newFd, whim).1, {t})
  {
    CreateOutcome(s, t, callback, data, newFd, whim);
    hide Create, KernelOk;
  }

  lemma {:induction false} DestroySparesMemory(s: State, t: nat, closeFault: bool)
    requires KernelOk(s.kernel) && t in s.handles
    ensures SparesMemory(s, Destroy(s, t, closeFault).1, {t})
  {
    DestroyOutcome(s, t, closeFault);
    hide Destroy, KernelOk;
  }

  lemma {:induction false} CallSparesMemory(s: State, a: Action)
    requires Sound(s) && Orderly(s, a)
    ensures SparesMemory(s, Call(s, a).1, Target(a))
  {
    hide Encode;
    assert KernelOk(s.kernel);
    hide Sound, Orderly, Add, Delete, Modify, SetTime, Create, Destroy, Advance, SetCondition, Wake;
    match a
    case AddCall(ed, whim) => AddFrame(s, ed, whim);
    case DeleteCall(fd) => DeleteFrame(s, fd);
    case ModifyCall(fd, ed, whim) => ModifyFrame(s, fd, ed, whim);
    case StartCall(t, msec, isOneShot) =>
      if t in s.handles {
        SetTimeSparesMemory(s, t, Encode(msec), if isOneShot then Timespec(0, 0) else Encode(msec));
      }
    case StopCall(t) =>
      if t in s.handles { SetTimeSparesMemory(s, t, Timespec(0, 0), Timespec(0, 0)); }
    case CreateCall(t, callback, data, newFd, whim) =>
      if t in s.handles { CreateSparesMemory(s, t, callback, data, newFd, whim); }
    case DestroyCall(t, closeFault) => if t in s.handles { DestroySparesMemory(s, t, closeFault); }
    case _ =>
  }

  lemma {:induction false} CallActive(s: State, a: Action)
    requires Sound(s) && Orderly(s, a)
    ensures ActiveOk(Call(s, a).1)
  {
    CallFrame(s, a);
    CallSparesMemory(s, a);
    hide Safe, Populated, TimersStored, Call;
    if a.StartCall? || a.StopCall? {
      SettingKeepsHandles(s, a);
    }
  }

  lemma CallSound(s: State, a: Action)
    requires Sound(s) && Orderly(s, a)
    ensures Sound(Call(s, a).1)
  {
    ActSafe(s, a);
    CallFrame(s, a);
    CallPopulates(s, a);
    CallStored(s, a);
    CallActive(s, a);
  }

  // --------------------------------------------------------- stale dispatch

  /** The file descriptor whose registration an action ends or replaces. */
  function Touched(s: State, a: Action): Option<Fd>
  {
    match a
    case DeleteCall(fd) => Some(fd)
    case ModifyCall(fd, _, _) => Some(fd)
    case CloseAny(fd) => Some(fd)
    case DestroyCall(t, _) => if t in s.handles then Some(s.handles[t].ed.fd) else None
    case _ => None
  }

  /** Orderly, and no registration is ended or replaced while its event waits
      in the current batch. */
  predicate Careful(s: State, a: Action)
  {
    Orderly(s, a) && (Touched(s, a).Some? ==> !Awaited(s, Touched(s, a).value))
  }

  /** Every event still to be dispatched has the descriptor that is registered
      now. */
  ghost predicate Fresh(s: State)
  {
    forall e :: e in s.todo ==> IsRegistered(s.kernel, e.ed)
  }

  ghost predicate Steady(s: State)
  {
    Sound(s) && Fresh(s)
  }

  /** A call leaves every registration alone but the one it touches. */
  ghost predicate LeavesOthers(s: State, s': State, fd: Option<Fd>)
  {
    forall ed: Descriptor ::
      IsRegistered(s.kernel, ed) && (fd.Some? ==> ed.fd != fd.value) ==> IsRegistered(s'.kernel, ed)
  }

  lemma {:induction false} CreateLeavesOthers(
      s: State, t: nat, callback: Option<nat>, data: Data, newFd: Fd, whim: Whim)
    requires Sound(s) && t in s.handles
    ensures LeavesOthers(s, Create(s, t, callback, data, newFd, whim).1, None)
  {
    CreateOutcome(s, t, callback, data, newFd, whim);
    assert newFd !in s.kernel.files ==> newFd !in s.kernel.interest;
  }

  lemma CallLeavesOthers(s: State, a: Action)
    requires Sound(s) && Orderly(s, a)
    ensures LeavesOthers(s, Call(s, a).1, Touched(s, a))
  {
    hide Encode, KernelOk, TodoOk, Bytes, HandlesOk, Without, Revents;
    match a
    case AddCall(ed, whim) =>
    case DeleteCall(_) =>
    case ModifyCall(_, _, _) =>
    case TerminateCall(_) =>
    case CreateCall(t, callback, data, newFd, whim) =>
      if t in s.handles { CreateLeavesOthers(s, t, callback, data, newFd, whim); }
    case StartCall(_, _, _) =>
    case StopCall(_) =>
    case DestroyCall(t, _) => DestroyOutcome(s, t, false);
    case OpenPlain(_, _, _) =>
    case CloseAny(_) =>
    case Becomes(_, _) =>
    case Pass(dt, order) => PassInterest(s.kernel, dt, order);
  }

  lemma {:induction false} CallSteady(s: State, a: Action)
    requires Steady(s) && Careful(s, a)
    ensures Steady(Call(s, a).1)
  {
    CallSound(s, a);
    CallLeavesOthers(s, a);
    CallFrame(s, a);
    var s' := Call(s, a).1;
    forall e | e in s'.todo ensures IsRegistered(s'.kernel, e.ed) {
      assert IsRegistered(s.kernel, e.ed);
      assert Touched(s, a).Some? ==> e.ed.fd != Touched(s, a).value;
    }
  }

  /** What the machine finds behind the pointer of the next event. */
  lemma HeadIsCurrent(s: State)
    requires Steady(s) && s.todo != []
    ensures var ed := s.todo[0].ed;
      && Deref(s, ed) == ed && IsRegistered(s.kernel, ed)
      && (ed.addr.TimerAddr? ==>
            ed.addr.timer in s.handles && IsLive(s.handles[ed.addr.timer])
            && ed == TimerDescriptor(ed.addr.timer, ed.fd) && s.handles[ed.addr.timer].ed == ed)
      && (!AtBreak(s) && !ed.addr.TimerAddr? ==> IsUser(ed))
  {
    assert s.todo[0] in s.todo;
  }

  /** The next handler call is for a registered descriptor and is not a call
      through a NULL pointer. */
  lemma EnterIsLive(s: State)
    requires Steady(s) && Enabled(s, Enter)
    ensures var s' := Apply(s, Enter);
      && s'.log.trace == s.log.trace + [Dispatched(s.todo[0], true)]
      && s'.log.faults == s.log.faults
      && s'.log.ledger == s.log.ledger
      && ActiveOk(s')
  {
    HeadIsCurrent(s);
  }

  lemma DrainedTimer(s: State)
    requires Sound(s) && s.active.Expired?
    ensures s.active.fd in s.kernel.files && s.kernel.files[s.active.fd].Timer?
    ensures Apply(s, Drain).log == s.log && ActiveOk(Apply(s, Drain))
    ensures Populated(s.em, Apply(s, Drain).kernel, s.handles)
  {
    var t := s.active.timer;
    assert TimerEntry(s.kernel, t, s.handles[t]);
  }

  lemma CallFaultFree(s: State, a: Action)
    requires Sound(s) && Orderly(s, a)
    ensures Call(s, a).1.log.faults == s.log.faults
  {
    hide Encode;
    match a
    case AddCall(ed, whim) => AddFrame(s, ed, whim);
    case DeleteCall(fd) => DeleteFrame(s, fd);
    case ModifyCall(fd, ed, whim) => ModifyFrame(s, fd, ed, whim);
    case CreateCall(t, callback, data, newFd, whim) =>
      if t in s.handles { CreateOutcome(s, t, callback, data, newFd, whim); }
    case DestroyCall(t, _) => DestroyShreds(s, t);
    case _ =>
  }

  lemma {:induction false} StepFaultFree(s: State, step: Step)
    requires Steady(s) && Enabled(s, step) && (step.Act? ==> Careful(s, step.action))
    ensures Apply(s, step).log.faults == s.log.faults
  {
    match step
    case Act(a) => CallFaultFree(s, a);
    case Enter => EnterIsLive(s);
    case Drain => DrainedTimer(s);
    case _ =>
  }

  /** Steps that leave registry, handles and open descriptors alone. */
  lemma SoundCarries(s: State, s': State)
    requires Sound(s) && Safe(s') && ActiveOk(s')
    requires s'.em == s.em && s'.storage == s.storage && s'.handles == s.handles
    requires s'.kernel.interest == s.kernel.interest && s'.kernel.files == s.kernel.files
    requires s'.log.ledger == s.log.ledger
    ensures Sound(s')
  {
    hide Safe, TimersStored, ActiveOk;
  }

  lemma FetchSteady(s: State)
    requires Steady(s) && Enabled(s, Fetch)
    ensures Steady(Apply(s, Fetch))
  {
    FetchSafe(s);
    SoundCarries(s, Apply(s, Fetch));
    hide Sound;
  }

  lemma BreakReadSteady(s: State)
    requires Steady(s) && Enabled(s, BreakRead)
    ensures Steady(Apply(s, BreakRead))
  {
    BreakReadSafe(s);
    SoundCarries(s, Apply(s, BreakRead));
    assert forall e :: e in s.todo[1..] ==> e in s.todo;
    hide Sound;
  }

  lemma EnterSteady(s: State)
    requires Steady(s) && Enabled(s, Enter)
    ensures Steady(Apply(s, Enter))
  {
    StepSafe(s, Enter);
    EnterIsLive(s);
    SoundCarries(s, Apply(s, Enter));
    assert forall e :: e in s.todo[1..] ==> e in s.todo;
    hide Sound;
  }

  lemma DrainSteady(s: State)
    requires Steady(s) && Enabled(s, Drain)
    ensures Steady(Apply(s, Drain))
  {
    DrainSafe(s);
    DrainedTimer(s);
  }

  lemma CallbackSteady(s: State)
    requires Steady(s) && Enabled(s, Callback)
    ensures Steady(Apply(s, Callback))
  {
  }

  lemma {:induction false} StepSteady(s: State, step: Step)
    requires Steady(s) && Enabled(s, step) && (step.Act? ==> Careful(s, step.action))
    ensures Steady(Apply(s, step))
  {
    match step
    case Act(a) => CallSteady(s, a);
    case Fetch => FetchSteady(s);
    case BreakRead => BreakReadSteady(s);
    case ReadError => HeadIsBreak(s);
    case Enter => EnterSteady(s);
    case Drain => DrainSteady(s);
    case Callback => CallbackSteady(s);
    case Leave =>
    case Return =>
  }

  lemma {:induction false} RunSteady(s: State, steps: seq<Step>)
    requires Steady(s) && Follows(s, steps) && Obeys(Careful, s, steps)
    ensures Steady(ApplyAll(s, steps))
  {
    if steps != [] {
      var init := steps[..|steps| - 1];
      RunSteady(s, init);
      StepSteady(ApplyAll(s, init), steps[|steps| - 1]);
    }
  }

  ghost predicate AllLive(trace: seq<Dispatched>)
  {
    forall d :: d in trace ==> d.live
  }

  /** Over every careful run, each handler call is made for a descriptor that
      is at that moment the one registered for its file descriptor, though
      handlers change the registry while the batch is dispatched; and no call
      goes through a NULL handler or callback. */
  lemma {:induction false} NoStaleDispatch(s: State, steps: seq<Step>)
    requires Steady(s) && Follows(s, steps) && Obeys(Careful, s, steps) && AllLive(s.log.trace)
    ensures AllLive(ApplyAll(s, steps).log.trace)
    ensures ApplyAll(s, steps).log.faults == s.log.faults
  {
    hide Sound, Fresh, Call, Careful;
    if steps != [] {
      var init, last := steps[..|steps| - 1], steps[|steps| - 1];
      NoStaleDispatch(s, init);
      RunSteady(s, init);
      var s1 := ApplyAll(s, init);
      StepFaultFree(s1, last);
      match last
      case Act(a) => CallFrame(s1, a);
      case Enter => EnterIsLive(s1);
      case _ =>
    }
  }

  /** An action that ends a registration, or puts another descriptor in its
      place. */
  predicate Unseats(s: State, a: Action, fd: Fd)
  {
    match a
    case DeleteCall(fd') => fd' == fd
    case CloseAny(fd') => fd' == fd
    case DestroyCall(t, _) => t in s.handles && s.handles[t].ed.fd == fd
    case ModifyCall(fd', ed, whim) =>
      fd' == fd && ed.Some? && !whim.deny && !(fd in s.kernel.interest && s.kernel.interest[fd] == ed.value)
    case _ => false
  }

  /** Exactly when an orderly call makes an event stale that is still to be
      dispatched: when it unseats a descriptor whose event waits in the batch. */
  lemma {:induction false} StaleExactly(s: State, a: Action)
    requires Steady(s) && Orderly(s, a)
    ensures Fresh(Call(s, a).1) <==> forall fd :: Awaited(s, fd) ==> !Unseats(s, a, fd)
  {
    var s' := Call(s, a).1;
    CallFrame(s, a);
    forall e | e in s.todo
      ensures Awaited(s, e.ed.fd)
      ensures IsRegistered(s'.kernel, e.ed) <==> !Unseats(s, a, e.ed.fd)
    {
      assert IsRegistered(s.kernel, e.ed);
      UnseatsExactly(s, a, e.ed);
    }
  }

  lemma {:induction false} UnseatsExactly(s: State, a: Action, ed: Descriptor)
    requires Sound(s) && Orderly(s, a) && IsRegistered(s.kernel, ed) && ed.fd != s.em.queueFd
    ensures IsRegistered(Call(s, a).1.kernel, ed) <==> !Unseats(s, a, ed.fd)
  {
    hide Encode, TodoOk, Bytes, HandlesOk, TimersStored, ActiveOk, Revents;
    CallLeavesOthers(s, a);
    match a
    case DestroyCall(t, _) => DestroyOutcome(s, t, false);
    case _ =>
  }

  /** A handler that deletes a descriptor whose event is next in the batch
      makes the machine call a handler that is no longer registered. */
  lemma CarelessDeleteIsStale(s: State, fd: Fd)
    requires Steady(s) && s.todo != [] && s.todo[0].ed.fd == fd && Orderly(s, DeleteCall(fd))
    ensures var s1 := Call(s, DeleteCall(fd)).1;
      Apply(s1, Enter).log.trace == s.log.trace + [Dispatched(s.todo[0], false)]
  {
    HeadIsCurrent(s);
    DeleteFrame(s, fd);
  }

  /** Destroying a timer whose event is next in the batch is worse: the handle
      has been shredded, and the call goes through a NULL pointer. */
  lemma CarelessDestroyFaults(s: State, t: nat)
    requires Steady(s) && s.todo != [] && s.todo[0].ed.addr == TimerAddr(t) && Orderly(s, DestroyCall(t, false))
    ensures var s1 := Call(s, DestroyCall(t, false)).1;
      Apply(s1, Enter).log.faults == s.log.faults + 1
  {
    HeadIsCurrent(s);
    DestroyShreds(s, t);
    hide Safe, Populated, TimersStored, ActiveOk, Destroy;
  }

  /** A callback may destroy its own timer when it is the last of its replay;
      before that, the next iteration reads the shredded handle and calls
      through a NULL pointer. */
  lemma DestroyInReplayFaults(s: State)
    requires Steady(s) && s.active.Replaying? && s.active.remaining > 0
    ensures var t := s.active.timer;
      var (r, s1) := Destroy(s, t, false);
      r == Success && Enabled(s1, Callback) && Apply(s1, Callback).log.faults == s.log.faults + 1
  {
    var t := s.active.timer;
    DestroyShreds(s, t);
  }

  // ------------------------------------------------ handlers that mind their own

  /** The file descriptor that the running handler was called for. */
  function OwnFd(s: State): Option<Fd>
  {
    match s.active
    case Idle => None
    case InUser(fd) => Some(fd)
    case Expired(_, fd) => Some(fd)
    case Replaying(t, _, _) => if t in s.handles then Some(s.handles[t].ed.fd) else None
  }

  /** A handler deletes, modifies, closes or destroys only what it was called
      for; between batches nothing is restricted. */
  predicate MindsOwn(s: State, a: Action)
  {
    Orderly(s, a) && (Touched(s, a).Some? ==> s.todo == [] || OwnFd(s) == Touched(s, a))
  }

  /** The running handler's own event is not in the rest of the batch. */
  ghost predicate Apart(s: State)
  {
    OwnFd(s).Some? ==> !Awaited(s, OwnFd(s).value)
  }

  lemma AwaitedIsRegistered(s: State, fd: Fd)
    requires Steady(s) && Awaited(s, fd)
    ensures fd in s.kernel.interest && fd in s.kernel.files && fd >= 0
  {
  }

  /** A call leaves a handle alone, or makes it unused, or gives it a file
      descriptor that was not open. */
  lemma {:induction false} CallHandle(s: State, a: Action, t: nat)
    requires Sound(s) && Orderly(s, a) && t in s.handles
    ensures var s' := Call(s, a).1;
      t in s'.handles && (s'.handles[t].ed.fd == s.handles[t].ed.fd || s'.handles[t].ed.fd !in s.kernel.files)
  {
    CallFrame(s, a);
    CallSparesMemory(s, a);
    if t in Target(a) {
      TargetHandle(s, a, t);
    }
    hide Call, Sound;
  }

  lemma {:induction false} TargetHandle(s: State, a: Action, t: nat)
    requires Sound(s) && t in s.handles && t in Target(a)
    ensures var s' := Call(s, a).1;
      t in s'.handles && (s'.handles[t].ed.fd == s.handles[t].ed.fd || s'.handles[t].ed.fd !in s.kernel.files)
  {
    hide Encode, Populated, TimersStored, ActiveOk, Create, Destroy, SetTime, Rearm;
    match a
    case CreateCall(_, callback, data, newFd, whim) => CreateOutcome(s, t, callback, data, newFd, whim);
    case DestroyCall(_, closeFault) => DestroyOutcome(s, t, closeFault);
    case StartCall(_, _, _) => SettingKeepsHandles(s, a);
    case StopCall(_) => SettingKeepsHandles(s, a);
  }

  lemma {:induction false} CallApart(s: State, a: Action)
    requires Steady(s) && Apart(s) && Careful(s, a)
    ensures Apart(Call(s, a).1)
  {
    CallFrame(s, a);
    var s' := Call(s, a).1;
    if s.active.Replaying? && s.active.timer in s'.handles {
      var t := s.active.timer;
      CallHandle(s, a, t);
      if Awaited(s, s'.handles[t].ed.fd) {
        AwaitedIsRegistered(s, s'.handles[t].ed.fd);
      }
    }
  }

  lemma {:induction false} StepApart(s: State, step: Step)
    requires Steady(s) && Apart(s) && Enabled(s, step) && (step.Act? ==> Careful(s, step.action))
    ensures Apart(Apply(s, step))
  {
    match step
    case Act(a) => CallApart(s, a);
    case Enter =>
      HeadIsCurrent(s);
      TailOk(s);
    case Drain => assert TimerEntry(s.kernel, s.active.timer, s.handles[s.active.timer]);
    case _ =>
  }

  lemma {:induction false} MindingOwnIsCareful(s: State, steps: seq<Step>)
    requires Steady(s) && Apart(s) && Follows(s, steps) && Obeys(MindsOwn, s, steps)
    ensures Obeys(Careful, s, steps) && Steady(ApplyAll(s, steps)) && Apart(ApplyAll(s, steps))
  {
    if steps != [] {
      var init, last := steps[..|steps| - 1], steps[|steps| - 1];
      MindingOwnIsCareful(s, init);
      StepSteady(ApplyAll(s, init), last);
      StepApart(ApplyAll(s, init), last);
    }
  }

  // -------------------------------------------------------------- population

  /** At any moment of a careful run the interest set has one entry for every
      live timer and no other entry of a timer; no two timers share a file
      descriptor; everything else is the break entry or a user entry. */
  lemma {:induction false} OneEntryPerTimer(s: State, steps: seq<Step>)
    requires Steady(s) && Follows(s, steps) && Obeys(Careful, s, steps)
    ensures var s' := ApplyAll(s, steps);
      var k := s'.kernel;
      && (forall fd :: TimerHolds(k, fd) <==>
            exists t :: t in s'.handles && IsLive(s'.handles[t]) && s'.handles[t].ed.fd == fd)
      && (forall t :: t in s'.handles && IsLive(s'.handles[t]) ==>
            IsRegistered(k, s'.handles[t].ed) && s'.handles[t].ed == TimerDescriptor(t, s'.handles[t].ed.fd))
      && (forall t, t' ::
            (t in s'.handles && t' in s'.handles && t != t' && IsLive(s'.handles[t]) && IsLive(s'.handles[t']))
            ==> s'.handles[t].ed.fd != s'.handles[t'].ed.fd)
      && (forall fd :: fd in k.interest && !TimerHolds(k, fd) && fd != s'.em.breakRead ==> IsUser(k.interest[fd]))
  {
    RunSteady(s, steps);
    var s' := ApplyAll(s, steps);
    forall fd | TimerHolds(s'.kernel, fd)
      ensures exists t :: t in s'.handles && IsLive(s'.handles[t]) && s'.handles[t].ed.fd == fd
    {
      var t := s'.kernel.interest[fd].addr.timer;
      assert t in s'.handles && s'.handles[t].ed.fd == fd;
    }
  }

  predicate Spared(t: nat, steps: seq<Step>)
  {
    forall i :: 0 <= i < |steps| && steps[i].Act? ==> t !in Target(steps[i].action)
  }

  lemma {:induction false} StepSpares(s: State, step: Step, t: nat)
    requires Steady(s) && Enabled(s, step)
    requires step.Act? ==> Careful(s, step.action) && t !in Target(step.action)
    requires t in s.handles && IsLive(s.handles[t])
    ensures var s' := Apply(s, step);
      t in s'.handles && s'.handles[t] == s.handles[t] && IsRegistered(s'.kernel, s.handles[t].ed)
  {
    match step
    case Act(a) =>
      CallPopulates(s, a);
      if a.Pass? {
        PassInterest(s.kernel, a.dt, a.order);
      } else {
        assert Undisturbed(s, Call(s, a).1, t);
      }
    case _ =>
  }

  /** Whatever happens to other timers and descriptors, a live timer that no
      timer function is called on keeps its handle and its registration. */
  lemma {:induction false} NeverDisturbed(s: State, steps: seq<Step>, t: nat)
    requires Steady(s) && Follows(s, steps) && Obeys(Careful, s, steps) && Spared(t, steps)
    requires t in s.handles && IsLive(s.handles[t])
    ensures var s' := ApplyAll(s, steps);
      t in s'.handles && s'.handles[t] == s.handles[t] && IsRegistered(s'.kernel, s.handles[t].ed)
  {
    if steps != [] {
      var init := steps[..|steps| - 1];
      NeverDisturbed(s, init, t);
      RunSteady(s, init);
      StepSpares(ApplyAll(s, init), steps[|steps| - 1], t);
    }
  }
}
