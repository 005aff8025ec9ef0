/** The library as imperative code: event_machine_*() and event_timer_*()
    branch by branch, on objects whose fields they update in place. Each
    method is proved against the functions and the protocol of small steps
    that the other modules reason about.

    The object also stands for the process: `kernel` is the state of the
    operating system, and `timers` is the memory in which timer handles lie,
    by address. */
module EventMachine {
  import opened Epoll
  import opened ReadyList
  import opened Machine
  import opened Timers
  import opened Protocol
  import opened BreakLoop
  import opened Rounds
  import opened Registry
  import opened Population
  import opened Expiry
  import opened Dispatch
  import opened Script
  import opened Runs

  const DEFAULT_MAX_EVENTS := 4096

  /** A machine that has just been initialised: only the break entry is
      registered, nothing is ready, no timer exists, nothing has happened. */
  ghost predicate Initial(s: State)
  {
    var em, k := s.em, s.kernel;
    && (forall fd :: fd in k.files ==>
          fd >= 0 && match k.files[fd]
                     case Queue => fd == em.queueFd
                     case PipeEnd => fd == em.breakRead || fd == em.breakWrite
                     case Plain(_, _) => true
                     case Timer(_) => false)
    && em.queueFd in k.files && k.files[em.queueFd] == Queue
    && em.breakRead in k.files && k.files[em.breakRead] == PipeEnd
    && em.breakWrite in k.files && k.files[em.breakWrite] == PipeEnd
    && em.breakRead != em.breakWrite && k.pipeRead == em.breakRead && k.pipeWrite == em.breakWrite
    && em.breakEd == BreakDescriptor(em.breakRead)
    && k.interest == map[em.breakRead := em.breakEd] && k.ready == []
    && k.pending == 0 && k.capacity >= 1
    && (s.storage.NoStorage? || s.storage.entries == map[])
    && (forall t :: t in s.handles ==> s.handles[t] == Shredded(t) && t in s.log.ledger)
    && s.todo == [] && !s.broke && s.active == Idle
    && s.log == Log(0, 0, 0, 0, [], [], s.log.ledger)
  }

  /** Kernel state with the ends of a pipe. */
  function Piped(k: Kernel, p0: Fd, p1: Fd): Kernel
  {
    k.(files := k.files[p0 := PipeEnd][p1 := PipeEnd], pipeRead := p0, pipeWrite := p1, pending := 0)
  }

  /** Kernel state with the pipe and the epoll instance, nothing registered. */
  function Connected(k: Kernel, p0: Fd, p1: Fd, queue: Fd): Kernel
  {
    OpenFile(Piped(k, p0, p1), queue, Queue)
  }

  /** What an initialisation that fails leaves open: everything that it has
      opened. */
  function LeftBehind(k: Kernel, pipe: Option<(Fd, Fd)>, queue: Option<Fd>): Kernel
  {
    if pipe.None? then k
    else if queue.None? then Piped(k, pipe.value.0, pipe.value.1)
    else Connected(k, pipe.value.0, pipe.value.1, queue.value)
  }

  lemma RegisterBreak(k: Kernel, p0: Fd, p1: Fd, queue: Fd, deny: bool)
    requires p0 != p1 && queue != p0 && queue != p1 && k.interest == map[]
    ensures var k' := Connected(k, p0, p1, queue);
      CtlAdd(k', queue, Some(BreakDescriptor(p0)), deny)
        == if deny then None else Some(k'.(interest := map[p0 := BreakDescriptor(p0)]))
  {
    var k' := Connected(k, p0, p1, queue);
    assert Condition(k'.(interest := map[p0 := BreakDescriptor(p0)]), p0) == {};
    assert k'.interest[p0 := BreakDescriptor(p0)] == map[p0 := BreakDescriptor(p0)];
  }

  /** A state in which nothing has happened yet and nothing is registered. */
  ghost predicate Blank(s: State)
  {
    && (forall t :: t in s.handles ==> s.handles[t] == Shredded(t) && t in s.log.ledger)
    && (forall fd :: fd in s.kernel.files ==> fd >= 0 && s.kernel.files[fd].Plain?)
    && s.kernel.interest == map[] && s.kernel.ready == [] && s.kernel.capacity >= 1
    && (s.storage.NoStorage? || s.storage.entries == map[])
    && s.todo == [] && !s.broke && s.active == Idle
    && s.log == Log(0, 0, 0, 0, [], [], s.log.ledger)
  }

  /** Whatever the fields of the machine hold. */
  lemma BlankForAny(s: State)
    requires Blank(s)
    ensures forall em :: Blank(s.(em := em))
  {
  }

  lemma ConnectedIsInitial(s: State, s': State)
    requires Blank(s) && s' == s.(kernel := s'.kernel, em := s'.em)
    requires s'.em.breakRead >= 0 && s'.em.breakWrite >= 0 && s'.em.queueFd >= 0
    requires s'.em.breakRead != s'.em.breakWrite && s'.em.queueFd !in {s'.em.breakRead, s'.em.breakWrite}
    requires s'.em.breakEd == BreakDescriptor(s'.em.breakRead)
    requires s'.kernel == Connected(s.kernel, s'.em.breakRead, s'.em.breakWrite, s'.em.queueFd).(
      interest := map[s'.em.breakRead := s'.em.breakEd])
    ensures Initial(s')
  {
  }

  /** Every invariant of the other modules holds to begin with. */
  lemma InitialHolds(s: State)
    requires Initial(s)
    ensures Steady(s) && Accounted(s) && Faithful(s) && Apart(s) && AllLive(s.log.trace) && Mirrored(s)
  {
    var k := s.kernel;
    assert Condition(k, s.em.breakRead) == {};
    assert forall fd :: fd in k.interest ==> fd == s.em.breakRead;
    assert KernelOk(k);
    assert Mirrored(s);
  }

  lemma NullNotModified(k: Kernel, queue: Fd, deny: bool)
    ensures CtlModify(k, queue, None, deny) == None
  {
  }

  lemma EnteredFrame(s: State)
    requires s.todo != []
    ensures var s' := EnteredState(s); s' == s.(todo := s'.todo, active := s'.active, log := s'.log)
  {
  }

  lemma CalledBackFrame(s: State)
    requires s.active.Replaying? && s.active.remaining > 0
    ensures var s' := CalledBack(s);
      s' == s.(active := s.active.(remaining := s.active.remaining - 1), log := s'.log)
  {
  }

  /** The two ways in which the read of the break byte can go. */
  lemma BreakSteps(s: State)
    requires s.active == Idle && AtBreak(s)
    ensures match ReadByte(s.kernel, s.em.breakRead)
      case Some(k) =>
        Enabled(s, BreakRead) && Apply(s, BreakRead)
          == s.(kernel := k, todo := s.todo[1..], broke := true, log := s.log.(consumed := s.log.consumed + 1))
      case None => Enabled(s, ReadError) && Apply(s, ReadError) == s.(todo := [], broke := false)
  {
  }

  /** A variable of the caller that receives a descriptor pointer. */
  class Slot {
    var ed: Option<Descriptor>

    constructor (ed: Option<Descriptor>)
      ensures this.ed == ed
    {
      this.ed := ed;
    }
  }

  /** Event_timer. */
  class EventTimer {
    const address: nat
    var eventDescriptor: Descriptor
    var eventMachine: EventMachine?
    var data: Data
    var callback: Option<nat>

    constructor (address: nat)
      ensures this.address == address && Value() == Shredded(address) && eventMachine == null
    {
      this.address := address;
      eventDescriptor := Descriptor(TimerAddr(address), -1, {}, NullData, NullHandler);
      eventMachine := null;
      data := NullData;
      callback := None;
    }

    function Value(): Handle
      reads this
    {
      Handle(eventDescriptor, eventMachine != null, data, callback)
    }

    /** shred(). */
    method Shred()
      modifies this
      ensures Value() == Shredded(address) && eventMachine == null
    {
      eventDescriptor := Descriptor(TimerAddr(address), -1, {}, NullData, NullHandler);
      eventMachine := null;
      data := NullData;
      callback := None;
    }

    static method Create(em: EventMachine?, timer: EventTimer?, callback: Option<nat>, data: Data,
        newFd: Fd, whim: Whim)
      returns (r: Code)
      requires em != null ==> em.Valid()
      requires em != null && timer != null ==> em.Owns(timer)
      modifies EventMachine.Only(em)`kernel, EventMachine.Only(em)`descriptorStorage, EventMachine.Only(em)`log, timer
      ensures em == null ==> r == ErrorNull && (timer != null ==> timer.Value() == old(timer.Value()))
      ensures em != null ==> em.Valid()
      ensures em != null && timer == null ==> r == ErrorTimerNull && em.Snapshot() == old(em.Snapshot())
      ensures em != null && timer != null ==>
        (r, em.Snapshot()) == Timers.Create(old(em.Snapshot()), timer.address, callback, data, newFd, whim)
    {
      if em == null {
        return ErrorNull;
      }
      if timer == null {
        return ErrorTimerNull;
      }
      if callback.None? {
        return ErrorCallbackNull;
      }
      r := CreateChecked(em, timer, callback, data, newFd, whim);
    }

    /** event_timer_create() after the checks of its arguments. */
    static method CreateChecked(em: EventMachine, timer: EventTimer, callback: Option<nat>, data: Data,
        newFd: Fd, whim: Whim)
      returns (r: Code)
      requires em.Valid() && em.Owns(timer) && callback.Some?
      modifies em`kernel, em`descriptorStorage, em`log, timer
      ensures em.Valid()
      ensures (r, em.Snapshot()) == Timers.Create(old(em.Snapshot()), timer.address, callback, data, newFd, whim)
    {
      hide Enrolled, OpenFile;
      timer.eventMachine := em;
      timer.data := data;
      timer.callback := callback;

      var fd := if newFd < 0 || newFd in em.kernel.files then -1 else newFd;
      if fd < 0 {
        em.HandleUpdated(timer);
        return ErrorTimerfdCreate;
      }
      em.kernel := OpenFile(em.kernel, fd, Timer(TimerFd(false, 0, 0, 0)));
      timer.eventDescriptor := Descriptor(TimerAddr(timer.address), fd, {In}, TimerData(timer.address), TimeoutHandler);
      em.HandleUpdated(timer);
      assert em.Snapshot() == Filled(old(em.Snapshot()), timer.address, timer.Value(), fd);
      r := Enroll(em, timer, fd, whim);
    }

    /** The last part of event_timer_create(). */
    static method Enroll(em: EventMachine, timer: EventTimer, fd: Fd, whim: Whim) returns (r: Code)
      requires em.Valid() && em.Owns(timer)
      requires timer.eventDescriptor == TimerDescriptor(timer.address, fd)
      modifies em`kernel, em`descriptorStorage, em`log, timer
      ensures em.Valid()
      ensures (r, em.Snapshot()) == Enrolled(old(em.Snapshot()), timer.address, fd, whim)
    {
      hide Machine.Add, CloseFd;
      r := EventMachine.Add(em, Some(timer.eventDescriptor), whim);
      if r != Success {
        em.Close(fd);
        em.Shred(timer);
      } else {
        em.log := Rearm(em.Snapshot(), timer.address, 0, 0);
      }
    }

    /** timerfd_settime(), a system call of the process `os`. */
    static method SetTime(os: EventMachine, timer: EventTimer, value: Timespec, interval: Timespec) returns (ok: bool)
      requires os.Valid() && os.Owns(timer)
      modifies os`kernel, os`log
      ensures os.Valid()
      ensures (if ok then Success else ErrorTimerfdSettime, os.Snapshot())
        == Timers.SetTime(old(os.Snapshot()), timer.address, value, interval)
    {
      assert os.Handles()[timer.address] == timer.Value();
      var fd := timer.eventDescriptor.fd;
      if fd !in os.kernel.files || !os.kernel.files[fd].Timer? || !ValidTimespec(value) || !ValidTimespec(interval) {
        return false;
      }
      ghost var before := os.Snapshot();
      os.kernel := SetTimer(os.kernel, fd, Nanoseconds(value), Nanoseconds(interval));
      os.log := Rearm(before, timer.address, Nanoseconds(value), Nanoseconds(interval));
      return true;
    }

    static method Start(os: EventMachine, timer: EventTimer?, msec: int, isOneShot: bool) returns (r: Code)
      requires os.Valid() && (timer != null ==> os.Owns(timer))
      modifies os`kernel, os`log
      ensures os.Valid()
      ensures timer == null ==> r == ErrorTimerNull && os.Snapshot() == old(os.Snapshot())
      ensures timer != null ==>
        (r, os.Snapshot()) == Timers.Start(old(os.Snapshot()), timer.address, msec, isOneShot)
    {
      if timer == null {
        return ErrorTimerNull;
      }
      var expirationTime := Timespec(TruncDiv(msec, 1000), TruncMod(msec, 1000) * 1000);
      var expirationTimeZero := Timespec(0, 0);
      var interval := if isOneShot then expirationTimeZero else expirationTime;
      var ok := SetTime(os, timer, expirationTime, interval);
      if !ok {
        return ErrorTimerfdSettime;
      }
      return Success;
    }

    static method Stop(os: EventMachine, timer: EventTimer?) returns (r: Code)
      requires os.Valid() && (timer != null ==> os.Owns(timer))
      modifies os`kernel, os`log
      ensures os.Valid()
      ensures timer == null ==> r == ErrorTimerNull && os.Snapshot() == old(os.Snapshot())
      ensures timer != null ==> (r, os.Snapshot()) == Timers.Stop(old(os.Snapshot()), timer.address)
    {
      var expiration := Timespec(0, 0);
      if timer == null {
        return ErrorTimerNull;
      }
      var ok := SetTime(os, timer, expiration, expiration);
      if !ok {
        return ErrorTimerfdSettime;
      }
      return Success;
    }

    static method Destroy(os: EventMachine, timer: EventTimer?, closeFault: bool) returns (r: Code)
      requires os.Valid() && (timer != null ==> os.Owns(timer))
      modifies os`kernel, os`descriptorStorage, os`log, timer
      ensures os.Valid()
      ensures timer == null ==> r == ErrorTimerNull && os.Snapshot() == old(os.Snapshot())
      ensures timer != null ==> (r, os.Snapshot()) == Timers.Destroy(old(os.Snapshot()), timer.address, closeFault)
    {
      if timer == null {
        return ErrorTimerNull;
      }
      assert os.Handles()[timer.address] == timer.Value();
      var fd := timer.eventDescriptor.fd;
      r := EventMachine.Delete(timer.eventMachine, fd, null);
      if timer.eventMachine == null {
        // the assertion that the machine is not NULL fails here
        os.log := os.log.(faults := os.log.faults + 1);
        return r;
      }
      os.Close(fd);
      if r != Success {
        return r;
      }
      if closeFault {
        return ErrorClose;
      }
      os.Shred(timer);
    }
  }

  /** EM. */
  class EventMachine {
    var queueFd: Fd
    var breakLoopRead: Fd
    var breakLoopWrite: Fd
    var breakLoopEventDescriptor: Descriptor
    var maxEvents: int
    var events: array?<Event>
    var doFreeEvents: bool
    var descriptorStorage: Storage

    var kernel: Kernel
    const timers: map<nat, EventTimer>

    ghost var todo: seq<Event>
    ghost var broke: bool
    ghost var active: Active
    ghost var log: Log

    ghost predicate Valid()
      reads timers.Values
    {
      forall a :: a in timers ==>
        && timers[a].address == a
        && (timers[a].eventMachine == null || timers[a].eventMachine == this)
    }

    function Handles(): map<nat, Handle>
      reads timers.Values
    {
      map a | a in timers :: timers[a].Value()
    }

    function Fixed(): Em
      reads this
    {
      Em(queueFd, breakLoopRead, breakLoopWrite, breakLoopEventDescriptor, maxEvents,
        if events == null then None else Some(events.Length))
    }

    ghost function Snapshot(): State
      reads this, timers.Values
    {
      State(kernel, Fixed(), descriptorStorage, Handles(), todo, broke, active, log)
    }

    /** The handle lies in the process's memory. */
    ghost predicate Owns(timer: EventTimer)
    {
      timer.address in timers && timers[timer.address] == timer
    }

    /** Writing to one handle changes that handle only. */
    twostate lemma HandleUpdated(timer: EventTimer)
      requires old(Valid()) && Owns(timer)
      requires forall a :: a in timers && timers[a] != timer ==> timers[a].Value() == old(timers[a].Value())
      ensures Handles() == old(Handles())[timer.address := timer.Value()]
    {
    }

    /** close(). */
    method Close(fd: Fd)
      requires Valid()
      modifies this`kernel
      ensures Valid() && Snapshot() == Closed(old(Snapshot()), fd)
    {
      if fd in kernel.files {
        kernel := CloseFd(kernel, fd);
      }
    }

    /** shred(), applied to a handle in this process's memory. */
    method Shred(timer: EventTimer)
      requires Valid() && Owns(timer)
      modifies timer
      ensures Valid() && Snapshot() == WithHandle(old(Snapshot()), timer.address, Shredded(timer.address))
    {
      timer.Shred();
      HandleUpdated(timer);
    }

    static function Only(em: EventMachine?): set<EventMachine>
    {
      if em == null then {} else {em}
    }

    // -------------------------------------------------------------- registry

    static method Add(em: EventMachine?, ed: Option<Descriptor>, whim: Whim) returns (r: Code)
      requires em != null ==> em.Valid()
      modifies Only(em)`kernel, Only(em)`descriptorStorage
      ensures em == null ==> r == ErrorNull
      ensures em != null ==> em.Valid() && (r, em.Snapshot()) == Machine.Add(old(em.Snapshot()), ed, whim)
    {
      if em == null {
        return ErrorNull;
      }
      if ed.None? {
        return ErrorDescriptorNull;
      }
      if em.queueFd < 0 || ed.value.fd < 0 {
        return ErrorBadFd;
      }
      if em.queueFd !in em.kernel.files || ed.value.fd !in em.kernel.files {
        return ErrorBadFd;
      }
      var ctl := CtlAdd(em.kernel, em.queueFd, ed, whim.deny);
      if ctl.None? {
        return ErrorEventCtl;
      }
      em.kernel := ctl.value;
      if !em.descriptorStorage.NoStorage? {
        var (code, storage) := Insert(em.descriptorStorage, ed.value.fd, ed.value, whim.refuse);
        em.descriptorStorage := storage;
        return code;
      }
      return Success;
    }

    static method RemoveEventDescriptor(em: EventMachine, fd: Fd, oldEd: Slot?) returns (r: Code)
      requires em.Valid()
      modifies em`descriptorStorage, oldEd
      ensures em.Valid()
      ensures var (code, prev, storage) := Remove(old(em.descriptorStorage), fd);
        && r == code && em.descriptorStorage == storage
        && (oldEd != null ==> oldEd.ed == if prev.Some? then prev else old(oldEd.ed))
    {
      r := Success;
      if em.descriptorStorage.Full? {
        var (code, tmp, storage) := Remove(em.descriptorStorage, fd);
        r := code;
        em.descriptorStorage := storage;
        if tmp.Some? && oldEd != null {
          oldEd.ed := tmp;
        }
      }
    }

    static method Delete(em: EventMachine?, fd: Fd, oldEd: Slot?) returns (r: Code)
      requires em != null ==> em.Valid()
      modifies Only(em)`kernel, Only(em)`descriptorStorage, oldEd
      ensures em == null ==> r == ErrorNull && (oldEd != null ==> oldEd.ed == old(oldEd.ed))
      ensures em != null ==> em.Valid()
      ensures em != null ==>
        var (code, prev, s) := Machine.Delete(old(em.Snapshot()), fd);
        && r == code && em.Snapshot() == s
        && (oldEd != null ==> oldEd.ed == if prev.Some? then prev else old(oldEd.ed))
    {
      if em == null {
        return ErrorNull;
      }
      if em.queueFd < 0 || fd < 0 {
        return ErrorBadFd;
      }
      if em.queueFd !in em.kernel.files || fd !in em.kernel.files {
        return ErrorBadFd;
      }
      r := DeleteChecked(em, fd, oldEd);
    }

    /** event_machine_delete() after the checks of its arguments. */
    static method DeleteChecked(em: EventMachine, fd: Fd, oldEd: Slot?) returns (r: Code)
      requires em.Valid() && Open(em.kernel, em.queueFd) && Open(em.kernel, fd)
      modifies em`kernel, em`descriptorStorage, oldEd
      ensures em.Valid()
      ensures
        var (code, prev, s) := Machine.Delete(old(em.Snapshot()), fd);
        && r == code && em.Snapshot() == s
        && (oldEd != null ==> oldEd.ed == if prev.Some? then prev else old(oldEd.ed))
    {
      hide CtlDelete, Remove;
      var ctl := CtlDelete(em.kernel, em.queueFd, fd);
      if ctl.None? {
        return ErrorEventCtl;
      }
      em.kernel := ctl.value;
      r := RemoveEventDescriptor(em, fd, oldEd);
    }

    static method Modify(em: EventMachine?, fd: Fd, ed: Option<Descriptor>, oldEd: Slot?, whim: Whim)
      returns (r: Code)
      requires em != null ==> em.Valid()
      modifies Only(em)`kernel, Only(em)`descriptorStorage, oldEd
      ensures em == null ==> r == ErrorNull && (oldEd != null ==> oldEd.ed == old(oldEd.ed))
      ensures em != null ==> em.Valid()
      ensures em != null ==>
        var (code, prev, s) := Machine.Modify(old(em.Snapshot()), fd, ed, whim);
        && r == code && em.Snapshot() == s
        && (oldEd != null ==> oldEd.ed == if prev.Some? then prev else old(oldEd.ed))
    {
      if em == null {
        return ErrorNull;
      }
      if em.queueFd < 0 || fd < 0 {
        return ErrorBadFd;
      }
      if em.queueFd !in em.kernel.files || fd !in em.kernel.files {
        return ErrorBadFd;
      }
      r := ModifyChecked(em, fd, ed, oldEd, whim);
    }

    /** event_machine_modify() after the checks of its arguments. */
    static method ModifyChecked(em: EventMachine, fd: Fd, ed: Option<Descriptor>, oldEd: Slot?, whim: Whim)
      returns (r: Code)
      requires em.Valid() && Open(em.kernel, em.queueFd) && Open(em.kernel, fd)
      modifies em`kernel, em`descriptorStorage, oldEd
      ensures em.Valid()
      ensures
        var (code, prev, s) := Machine.Modify(old(em.Snapshot()), fd, ed, whim);
        && r == code && em.Snapshot() == s
        && (oldEd != null ==> oldEd.ed == if prev.Some? then prev else old(oldEd.ed))
    {
      NullNotModified(em.kernel, em.queueFd, whim.deny);
      hide CtlModify, Replace;
      var ctl := CtlModify(em.kernel, em.queueFd, ed, whim.deny);
      if ctl.None? {
        return ErrorEventCtl;
      }
      em.kernel := ctl.value;
      r := ReplaceEventDescriptor(em, fd, ed.value, oldEd, whim.refuse);
    }

    /** The storage half of event_machine_modify(). */
    static method ReplaceEventDescriptor(em: EventMachine, fd: Fd, ed: Descriptor, oldEd: Slot?, refuse: bool)
      returns (r: Code)
      requires em.Valid()
      modifies em`descriptorStorage, oldEd
      ensures em.Valid()
      ensures var (code, prev, storage) := Replace(old(em.descriptorStorage), fd, ed, refuse);
        && r == code && em.descriptorStorage == storage
        && (oldEd != null ==> oldEd.ed == if prev.Some? then prev else old(oldEd.ed))
    {
      r := RemoveEventDescriptor(em, fd, oldEd);
      if r != Success {
        return r;
      }
      if !em.descriptorStorage.NoStorage? {
        var (code, storage) := Insert(em.descriptorStorage, fd, ed, refuse);
        em.descriptorStorage := storage;
        return code;
      }
    }

    static method Terminate(em: EventMachine?, fault: bool) returns (r: Code)
      requires em != null ==> em.Valid()
      modifies Only(em)`kernel, Only(em)`log
      ensures em == null ==> r == ErrorNull
      ensures em != null ==> em.Valid() && (r, em.Snapshot()) == Machine.Terminate(old(em.Snapshot()), fault)
    {
      if em == null {
        return ErrorNull;
      }
      if em.breakLoopWrite < 0 {
        return ErrorBadFd;
      }
      if em.breakLoopWrite !in em.kernel.files {
        return ErrorBadFd;
      }
      if fault {
        return ErrorWrite;
      }
      match WriteByte(em.kernel, em.breakLoopWrite) {
        case Failed => return ErrorWrite;
        case WouldBlock => return Success;
        case Stored(k) =>
          em.kernel := k;
          em.log := em.log.(written := em.log.written + 1);
          return Success;
      }
    }

    // -------------------------------------------------- handlers and callbacks

    /** One API call, or one change in the environment. */
    method Perform(a: Action) returns (r: Code)
      requires Valid()
      modifies this`kernel, this`descriptorStorage, this`log, timers.Values
      ensures Valid() && (r, Snapshot()) == Call(old(Snapshot()), a)
    {
      match a {
        case AddCall(ed, whim) => r := Add(this, ed, whim);
        case DeleteCall(fd) => r := Delete(this, fd, null);
        case ModifyCall(fd, ed, whim) => r := Modify(this, fd, ed, null, whim);
        case TerminateCall(fault) => r := Terminate(this, fault);
        case CreateCall(t, callback, data, newFd, whim) =>
          if t in timers {
            r := EventTimer.Create(this, timers[t], callback, data, newFd, whim);
          } else {
            r := EventTimer.Create(this, null, callback, data, newFd, whim);
          }
        case StartCall(t, msec, isOneShot) =>
          if t in timers {
            r := EventTimer.Start(this, timers[t], msec, isOneShot);
          } else {
            r := EventTimer.Start(this, null, msec, isOneShot);
          }
        case StopCall(t) =>
          if t in timers {
            r := EventTimer.Stop(this, timers[t]);
          } else {
            r := EventTimer.Stop(this, null);
          }
        case DestroyCall(t, closeFault) =>
          if t in timers {
            r := EventTimer.Destroy(this, timers[t], closeFault);
          } else {
            r := EventTimer.Destroy(this, null, closeFault);
          }
        case _ =>
          r := Happen(a);
      }
    }

    /** A change that other code makes to the process's descriptors, or time. */
    method Happen(a: Action) returns (r: Code)
      requires Valid() && (a.OpenPlain? || a.CloseAny? || a.Becomes? || a.Pass?)
      modifies this`kernel
      ensures Valid() && (r, Snapshot()) == Call(old(Snapshot()), a)
    {
      r := Success;
      if a.OpenPlain? {
        if a.fd >= 0 && a.fd !in kernel.files {
          kernel := OpenFile(kernel, a.fd, Plain(a.cond, a.pollable));
        } else {
          r := ErrorBadFd;
        }
      } else if a.CloseAny? {
        if a.fd in kernel.files {
          kernel := CloseFd(kernel, a.fd);
        } else {
          r := ErrorBadFd;
        }
      } else if a.Becomes? {
        kernel := SetCondition(kernel, a.fd, a.cond);
      } else {
        kernel := Advance(kernel, a.dt, a.order);
      }
    }

    method PerformAll(actions: seq<Action>) returns (ghost steps: seq<Step>)
      requires Valid()
      modifies this`kernel, this`descriptorStorage, this`log, timers.Values
      ensures Valid() && Ran(old(Snapshot()), steps, Snapshot(), PoliteActions(Fixed(), actions))
      ensures steps == Performed(actions)
    {
      hide Performed;
      PerformedNone();
      steps := [];
      ghost var polite := PoliteActions(Fixed(), actions);
      for i := 0 to |actions|
        invariant Valid() && Ran(old(Snapshot()), steps, Snapshot(), polite)
        invariant steps == Performed(actions[..i])
      {
        PerformedSnoc(actions, i);
        ghost var before := Snapshot();
        var r := Perform(actions[i]);
        RanStep(before, Act(actions[i]), polite);
        RanChain(old(Snapshot()), steps, before, [Act(actions[i])], Snapshot(), polite);
        steps := steps + [Act(actions[i])];
      }
      assert actions[..|actions|] == actions;
    }

    /** The handler returns. */
    ghost method LeaveHandler()
      requires Valid() && Enabled(Snapshot(), Leave)
      modifies this`active
      ensures Valid() && active == Idle && Snapshot() == Apply(old(Snapshot()), Leave)
    {
      active := Idle;
    }

    /** The function pointer in the handle at address `t`. */
    function CallbackAt(t: nat): Option<nat>
      reads timers.Values
    {
      if t in timers then timers[t].callback else None
    }

    /** Keeps the account of a callback. */
    ghost method CountCallback()
      requires Valid() && active.Replaying? && active.remaining > 0
      modifies this`log, this`active
      ensures Valid() && Snapshot() == Apply(old(Snapshot()), Callback)
      ensures active == old(active).(remaining := old(active).remaining - 1)
    {
      var start := Snapshot();
      CalledBackFrame(start);
      hide CalledBack;
      log := CalledBack(start).log;
      active := CalledBack(start).active;
    }

    /** One iteration of the loop: the handle is read anew, its callback is
        called, and the callback makes its calls. */
    method CallCallback(t: nat, body: seq<Action>) returns (ghost steps: seq<Step>)
      requires Valid() && active.Replaying? && active.remaining > 0 && active.timer == t
      modifies this`kernel, this`descriptorStorage, this`log, this`active, timers.Values
      ensures Valid() && Ran(old(Snapshot()), steps, Snapshot(), PoliteActions(Fixed(), body))
      ensures active == old(active).(remaining := old(active).remaining - 1)
      ensures steps == CallbackSteps(old(Snapshot()), t, body)
    {
      ghost var polite := PoliteActions(Fixed(), body);
      var callback := CallbackAt(t);
      ghost var start := Snapshot();
      CountCallback();
      RanStep(start, Callback, polite);
      steps := [Callback];
      if callback.Some? {
        ghost var called := Snapshot();
        ghost var more := PerformAll(body);
        RanChain(start, steps, called, more, Snapshot(), polite);
        steps := steps + more;
      }
    }

    /** Reads how often the timer has expired since the last read; EAGAIN, when
        it has not, reads as zero. Any other failure stops the program. */
    method ReadTimer(fd: Fd, t: nat) returns (numberOfTimeouts: nat)
      requires Valid() && active == Expired(t, fd)
      modifies this`kernel, this`log, this`active
      ensures Valid() && Snapshot() == Apply(old(Snapshot()), Drain)
      ensures active.Replaying? && active.timer == t && active.remaining == numberOfTimeouts
      ensures numberOfTimeouts == TicksAt(old(kernel), fd)
    {
      ghost var start := Snapshot();
      if fd in kernel.files && kernel.files[fd].Timer? {
        numberOfTimeouts := kernel.files[fd].timer.ticks;
        kernel := DrainTimer(kernel, fd);
        active := Replaying(t, numberOfTimeouts, Gen(start, t));
      } else {
        numberOfTimeouts := 0;
        log := Fault(start).log;
        active := Replaying(t, 0, 0);
      }
    }

    /** How often the timer has expired since the last read. */
    static function TicksAt(k: Kernel, fd: Fd): nat
    {
      if fd in k.files && k.files[fd].Timer? then k.files[fd].timer.ticks else 0
    }

    /** internal_timeout_handler(): reads how often the timer has expired and
        calls the timer's callback exactly as many times. */
    method InternalTimeoutHandler(fd: Fd, t: nat, bodies: seq<seq<Action>>) returns (ghost steps: seq<Step>)
      requires Valid() && active == Expired(t, fd)
      modifies this`kernel, this`descriptorStorage, this`log, this`active, timers.Values
      ensures Valid() && Ran(old(Snapshot()), steps, Snapshot(), PoliteBodies(Fixed(), bodies)) && active == Idle
      ensures steps == HandlerSteps(old(Snapshot()), bodies)
      ensures multiset(steps)[Callback] == TicksAt(old(kernel), fd)
    {
      HandlerIs(Snapshot(), bodies);
      hide HandlerSteps, ReplaySteps, Apply, Quiet, Went;
      ghost var polite := PoliteBodies(Fixed(), bodies);
      ghost var start := Snapshot();
      var numberOfTimeouts := ReadTimer(fd, t);
      RanStep(start, Drain, polite);
      steps := [Drain];

      ghost var drained := Snapshot();
      ghost var more := Replay(t, numberOfTimeouts, bodies);
      ReplayCount(drained, t, bodies, 0, numberOfTimeouts);
      ghost var before := Snapshot();
      RanChain(start, steps, drained, more, before, polite);
      LeaveHandler();
      RanStep(before, Leave, polite);
      RanChain(start, steps + more, before, [Leave], Snapshot(), polite);
      steps := steps + more + [Leave];
    }

    /** The countdown loop of internal_timeout_handler(). */
    method Replay(t: nat, n: nat, bodies: seq<seq<Action>>) returns (ghost steps: seq<Step>)
      requires Valid() && active.Replaying? && active.timer == t && active.remaining == n
      modifies this`kernel, this`descriptorStorage, this`log, this`active, timers.Values
      ensures Valid() && Ran(old(Snapshot()), steps, Snapshot(), PoliteBodies(Fixed(), bodies))
      ensures active == old(active).(remaining := 0)
      ensures steps == ReplaySteps(old(Snapshot()), t, bodies, 0, n)
    {
      ghost var polite := PoliteBodies(Fixed(), bodies);
      ghost var start := Snapshot();
      WentNowhere(start, polite);
      ReplayEnds(bodies, t);
      hide ReplaySteps, CallbackSteps, Executes, ApplyAll;
      steps := [];
      var numberOfTimeouts, i := n, 0;
      while numberOfTimeouts > 0
        invariant Valid() && Ran(start, steps, Snapshot(), polite)
        invariant active == start.active.(remaining := numberOfTimeouts)
        invariant numberOfTimeouts + i == n
        invariant ReplaySteps(start, t, bodies, 0, n)
          == steps + ReplaySteps(Snapshot(), t, bodies, i, numberOfTimeouts)
        decreases numberOfTimeouts
      {
        ghost var here := Snapshot();
        ghost var more := CallCallback(t, Body(bodies, i));
        RanChain(start, steps, here, more, Snapshot(), polite);
        WentEnd(here, more, Snapshot(), polite);
        ReplayUnfolds(here, t, bodies, i, numberOfTimeouts, steps);
        steps := steps + more;
        numberOfTimeouts := numberOfTimeouts - 1;
        i := i + 1;
      }
    }

    // ------------------------------------------------------------ dispatching

    /** Follows a descriptor pointer. */
    function PointsTo(ed: Descriptor): Descriptor
      reads timers.Values
    {
      if ed.addr.TimerAddr? && ed.addr.timer in timers then timers[ed.addr.timer].eventDescriptor else ed
    }

    /** Records that a handler is called for the next event. */
    ghost method RecordEntry()
      requires Valid() && todo != []
      modifies this`todo, this`active, this`log
      ensures Valid() && Snapshot() == Apply(old(Snapshot()), Enter)
    {
      EnteredFrame(Snapshot());
      hide EnteredState;
      var s := EnteredState(Snapshot());
      todo, active, log := s.todo, s.active, s.log;
    }

    /** A handler of the user, from its call to its return. */
    method CallUserHandler(body: seq<Action>) returns (ghost steps: seq<Step>)
      requires Valid() && active.InUser?
      modifies this`kernel, this`descriptorStorage, this`log, this`active, timers.Values
      ensures Valid() && Ran(old(Snapshot()), steps, Snapshot(), PoliteActions(Fixed(), body))
      ensures active == Idle && steps == Performed(body) + [Leave]
    {
      ghost var polite := PoliteActions(Fixed(), body);
      ghost var start := Snapshot();
      steps := PerformAll(body);
      ghost var before := Snapshot();
      LeaveHandler();
      RanStep(before, Leave, polite);
      RanChain(start, steps, before, [Leave], Snapshot(), polite);
      steps := steps + [Leave];
    }

    /** The handler that `ed` points to, from its entry to its return. */
    method RunHandler(ed: Descriptor, bodies: seq<seq<Action>>) returns (ghost steps: seq<Step>)
      requires Valid() && active == Entered(ed)
      modifies this`kernel, this`descriptorStorage, this`log, this`active, timers.Values
      ensures Valid() && Ran(old(Snapshot()), steps, Snapshot(), PoliteBodies(Fixed(), bodies))
      ensures active == Idle && steps == HandlerSteps(old(Snapshot()), bodies)
    {
      WentNowhere(Snapshot(), PoliteBodies(Fixed(), bodies));
      HandlerIs(Snapshot(), bodies);
      hide HandlerSteps, Executes, PoliteSteps, Performed, ReplaySteps, Apply;
      steps := [];
      if ed.handler.UserHandler? {
        steps := CallUserHandler(Body(bodies, 0));
      } else if ed.handler.TimeoutHandler? && ed.data.TimerData? {
        steps := InternalTimeoutHandler(ed.fd, ed.data.timer, bodies);
      }
    }

    /** ed->handler(em, events, ed->fd, ed->data). */
    method CallHandler(ed: Descriptor, bodies: seq<seq<Action>>) returns (ghost steps: seq<Step>)
      requires Valid() && Enabled(Snapshot(), Enter) && ed == PointsTo(todo[0].ed)
      modifies this`kernel, this`descriptorStorage, this`log, this`active, this`todo, timers.Values
      ensures Valid() && Ran(old(Snapshot()), steps, Snapshot(), PoliteBodies(Fixed(), bodies))
      ensures active == Idle && todo == old(todo)[1..]
      ensures steps == [Enter] + HandlerSteps(Apply(old(Snapshot()), Enter), bodies)
    {
      ghost var polite := PoliteBodies(Fixed(), bodies);
      ghost var start := Snapshot();
      assert Deref(start, todo[0].ed) == ed;
      RanStep(start, Enter, polite);
      RecordEntry();
      assert todo == start.todo[1..] && active == Entered(ed);
      hide HandlerSteps, Ran, Apply, Enabled;
      ghost var entered := Snapshot();
      ghost var more := RunHandler(ed, bodies);
      RanChain(start, [Enter], entered, more, Snapshot(), polite);
      steps := [Enter] + more;
    }

    /** Keeps the account of a break byte that has been read. */
    ghost method RecordBreak()
      requires Valid() && todo != []
      modifies this`todo, this`broke, this`log
      ensures Valid() && broke && todo == old(todo)[1..]
      ensures Snapshot()
        == old(Snapshot()).(todo := todo, broke := true, log := old(log).(consumed := old(log).consumed + 1))
    {
      todo, broke, log := todo[1..], true, log.(consumed := log.consumed + 1);
    }

    /** The rest of the batch is dropped when the read fails. */
    ghost method RecordReadError()
      requires Valid()
      modifies this`todo, this`broke
      ensures Valid() && todo == [] && !broke && Snapshot() == old(Snapshot()).(todo := [], broke := false)
    {
      todo, broke := [], false;
    }

    /** The branch of the loop for the break event. */
    method ReadBreak() returns (r: Code, ghost steps: seq<Step>)
      requires Valid() && active == Idle && AtBreak(Snapshot())
      modifies this`kernel, this`log, this`todo, this`broke
      ensures Valid() && Went(old(Snapshot()), steps, Snapshot(), true) && NoFetch(steps)
      ensures r == Success || r == ErrorRead
      ensures forall bodies :: steps == DispatchSteps(old(Snapshot()), bodies)
      ensures r == Success ==> steps == [BreakRead] && broke && todo == old(todo)[1..]
      ensures r == ErrorRead ==> steps == [ReadError] && !broke && todo == []
    {
      ghost var start := Snapshot();
      BreakSteps(start);
      hide Went, Apply, Enabled, AtBreak, ReadByte;
      var byte := ReadByte(kernel, breakLoopRead);
      if byte.None? {
        RecordReadError();
        r, steps := ErrorRead, [ReadError];
      } else {
        kernel := byte.value;
        RecordBreak();
        r, steps := Success, [BreakRead];
      }
      WentStep(start, steps[0], true);
    }

    /** The body of the loop over a batch. */
    method HandleEvent(event: Event, reaction: Reaction) returns (r: Code, isBreak: bool, ghost steps: seq<Step>)
      requires Valid() && active == Idle && todo != [] && event == todo[0]
      modifies this`kernel, this`descriptorStorage, this`log, this`active, this`todo, this`broke, timers.Values
      ensures Valid() && active == Idle
      ensures Went(old(Snapshot()), steps, Snapshot(), PoliteReaction(Fixed(), reaction)) && NoFetch(steps)
      ensures r == Success || r == ErrorRead
      ensures r == Success ==>
        && todo == old(todo)[1..] && broke == (old(broke) || isBreak) && (isBreak <==> BreakRead in steps)
      ensures r == ErrorRead ==> todo == [] && !broke
      ensures r == ErrorRead <==> ReadError in steps
      ensures steps == EventSteps(old(Snapshot()), reaction)
    {
      hide Executes, Apply, ApplyAll, PoliteSteps, Call, EventSteps, HandlerSteps, Performed;
      ghost var polite := PoliteReaction(Fixed(), reaction);
      ghost var start := Snapshot();
      steps := PerformAll(reaction.meanwhile);
      ghost var here := Snapshot();
      WentEnd(start, steps, here, polite);
      EventIs(start, reaction, here);
      var ed := PointsTo(event.ed);
      isBreak := ed.fd == breakLoopRead;
      ghost var more: seq<Step>;
      if isBreak {
        r, more := ReadBreak();
      } else {
        more := CallHandler(ed, reaction.bodies);
        r := Success;
      }
      WentChain(start, steps, here, more, Snapshot(), polite);
      steps := steps + more;
    }

    /** epoll_wait() fills the buffer. */
    method Wait() returns (numEvents: nat)
      requires Valid() && events != null && 0 < maxEvents <= events.Length
      requires active == Idle && todo == [] && !broke
      modifies this`kernel, this`todo, this`log, events
      ensures Valid() && Snapshot() == Apply(old(Snapshot()), Fetch)
      ensures Went(old(Snapshot()), [Fetch], Snapshot(), true)
      ensures numEvents <= maxEvents && events[..numEvents] == todo
    {
      WentStep(Snapshot(), Fetch, true);
      var batch := Batch(kernel, maxEvents);
      BatchSize(kernel, kernel.ready, maxEvents);
      hide Went, Enabled, Batch, Waited;
      numEvents := |batch|;
      Fill(batch);
      kernel := Waited(kernel, maxEvents);
      todo := batch;
      log := log.(fetched := log.fetched + batch);
    }

    /** The kernel copies the batch into the buffer. */
    method Fill(batch: seq<Event>)
      requires events != null && |batch| <= events.Length
      modifies events
      ensures events[..|batch|] == batch
    {
      for j := 0 to |batch|
        invariant events[..j] == batch[..j]
      {
        events[j] := batch[j];
      }
    }

    /** The loop over a batch in event_machine_run_once(). */
    method DispatchBatch(numEvents: nat, reactions: seq<Reaction>)
      returns (r: Code, breakLoop: bool, ghost steps: seq<Step>)
      requires Valid() && events != null && numEvents <= events.Length && events[..numEvents] == todo
      requires active == Idle && !broke
      modifies this`kernel, this`descriptorStorage, this`log, this`active, this`todo, this`broke, timers.Values
      ensures Valid() && active == Idle && todo == []
      ensures Went(old(Snapshot()), steps, Snapshot(), PoliteReactions(Fixed(), reactions)) && NoFetch(steps)
      ensures r == Success || r == ErrorRead
      ensures r == Success ==> broke == breakLoop && (breakLoop <==> BreakRead in steps)
      ensures r != Success ==> !broke
      ensures r == ErrorRead <==> ReadError in steps
      ensures steps == BatchSteps(old(Snapshot()), reactions, 0, numEvents)
    {
      BatchEnds(reactions, numEvents);
      hide Executes, Apply, ApplyAll, PoliteSteps, Enabled, EventSteps, BatchSteps;
      ghost var polite := PoliteReactions(Fixed(), reactions);
      ghost var start, batch := Snapshot(), todo;
      steps, breakLoop := [], false;
      WentNowhere(start, polite);
      for i := 0 to numEvents
        invariant Valid() && active == Idle && Went(start, steps, Snapshot(), polite) && NoFetch(steps)
        invariant todo == batch[i..] && events[..numEvents] == batch
        invariant broke == breakLoop && (breakLoop <==> BreakRead in steps) && ReadError !in steps
        invariant BatchSteps(start, reactions, 0, numEvents)
          == steps + BatchSteps(Snapshot(), reactions, i, numEvents - i)
      {
        ghost var here := Snapshot();
        assert events[i] == events[..numEvents][i];
        var isBreak: bool;
        ghost var more: seq<Step>;
        r, isBreak, more := HandleEvent(events[i], ReactionTo(reactions, i));
        WentChain(start, steps, here, more, Snapshot(), polite);
        WentEnd(here, more, Snapshot(), polite);
        BatchUnfolds(here, reactions, i, numEvents - i, steps);
        steps := steps + more;
        breakLoop := breakLoop || isBreak;
        if r != Success {
          return;
        }
      }
      r := Success;
    }

    /** event_machine_run_once(). */
    method RunOnce(turn: Turn) returns (r: Code, breakLoop: bool, ghost steps: seq<Step>)
      requires Valid() && events != null && 0 < maxEvents <= events.Length
      requires active == Idle && todo == [] && !broke
      modifies this`kernel, this`descriptorStorage, this`log, this`active, this`todo, this`broke, timers.Values, events
      ensures Valid() && active == Idle && todo == []
      ensures Went(old(Snapshot()), steps, Snapshot(), PoliteTurn(Fixed(), turn))
      ensures r == Success || r == ErrorEventWait || r == ErrorRead
      ensures r == ErrorEventWait <==> turn.waitFails
      ensures Fetches(steps) == if r == ErrorEventWait then 0 else 1
      ensures r == Success ==> broke == breakLoop && (breakLoop <==> BreakRead in steps)
      ensures r != Success ==> !broke
      ensures r == ErrorRead <==> ReadError in steps
      ensures r == ErrorEventWait ==> BreakRead !in steps
      ensures steps == TurnSteps(old(Snapshot()), turn)
    {
      hide Executes, Apply, ApplyAll, Enabled, Batch, PoliteSteps, Fetches, TurnSteps, BatchSteps, Performed;
      ghost var polite := PoliteTurn(Fixed(), turn);
      ghost var start := Snapshot();
      breakLoop := false;
      steps := PerformAll(turn.before);
      OneFetch(steps, []);
      ghost var waiting := Snapshot();
      WentEnd(start, steps, waiting, polite);
      TurnIs(start, turn, waiting);
      if turn.waitFails {
        return ErrorEventWait, breakLoop, steps;
      }
      var numEvents := Wait();
      WentChain(start, steps, waiting, [Fetch], Snapshot(), polite);
      ghost var fetched := Snapshot();
      ghost var more: seq<Step>;
      r, breakLoop, more := DispatchBatch(numEvents, turn.reactions);
      WentChain(start, steps + [Fetch], fetched, more, Snapshot(), polite);
      OneFetch(steps, more);
      steps := steps + [Fetch] + more;
    }

    /** The loop of event_machine_run(), for as long as `turns` say what
        happens. */
    method RunLoop(turns: seq<Turn>) returns (outcome: Outcome, batches: nat, ghost steps: seq<Step>)
      requires Valid() && events != null && 0 < maxEvents <= events.Length
      requires active == Idle && todo == [] && !broke
      modifies this`kernel, this`descriptorStorage, this`log, this`active, this`todo, this`broke, timers.Values, events
      ensures Valid() && active == Idle && todo == [] && !broke
      ensures RunSpec(old(Snapshot()), turns, outcome, batches, steps, Snapshot())
    {
      RunEnds();
      hide Executes, Apply, ApplyAll, PoliteSteps, Enabled, TurnSteps, RunSteps, RunSpec, Fetches;
      ghost var start := Snapshot();
      ghost var polite := PoliteTurns(Fixed(), turns);
      steps, batches := [], 0;
      WentNowhere(start, polite);
      var breakLoop := false;
      while !breakLoop && batches < |turns|
        invariant Valid() && active == Idle && todo == [] && broke == breakLoop
        invariant Went(start, steps, Snapshot(), polite) && Fetches(steps) == batches <= |turns|
        invariant (breakLoop <==> BreakRead in steps) && ReadError !in steps
        invariant RunSteps(start, turns)
          == steps + if breakLoop then [Return] else RunSteps(Snapshot(), turns[batches..])
        decreases |turns| - batches
      {
        ghost var here := Snapshot();
        var r: Code;
        ghost var more: seq<Step>;
        r, breakLoop, more := RunOnce(turns[batches]);
        WentChain(start, steps, here, more, Snapshot(), polite);
        FetchesAdd(steps, more);
        WentEnd(here, more, Snapshot(), polite);
        RunUnfolds(here, turns, batches, steps);
        steps := steps + more;
        if r != Success {
          FailedSpec(start, turns, r, steps, Snapshot());
          return Returned(r), if r == ErrorEventWait then batches else batches + 1, steps;
        }
        batches := batches + 1;
      }
      if !breakLoop {
        assert turns[|turns|..] == [];
        WaitingSpec(start, turns, steps, Snapshot());
        return StillRunning, batches, steps;
      }
      SucceededSpec(start, turns, steps, Snapshot());
      steps := steps + [Return];
      RecordReturn();
      outcome := Returned(Success);
    }

    /** Keeps the account of the run that returns EM_SUCCESS. */
    ghost method RecordReturn()
      requires Valid()
      modifies this`broke, this`log
      ensures Valid() && !broke && Snapshot() == Apply(old(Snapshot()), Return)
    {
      broke, log := false, log.(finished := log.finished + 1);
    }

    static function Handed(em: EventMachine?): set<object>
    {
      if em == null then {} else em.timers.Values
    }

    static function Buffer(em: EventMachine?): set<array<Event>>
      reads Only(em)
    {
      if em == null || em.events == null then {} else {em.events}
    }

    /** event_machine_run(). The caller's buffer holds maxEvents events, and
        nobody else is running the machine. */
    static method Run(em: EventMachine?, turns: seq<Turn>)
      returns (outcome: Outcome, batches: nat, ghost steps: seq<Step>)
      requires em != null ==> em.Valid() && em.active == Idle && em.todo == [] && !em.broke
      requires em != null && em.events != null ==> em.maxEvents <= em.events.Length
      modifies Only(em), Handed(em), Buffer(em)
      ensures em == null ==> outcome == Returned(ErrorNull)
      ensures em != null ==> em.Valid() && em.active == Idle && em.todo == [] && !em.broke
      ensures em != null && RunCheck(old(em.Snapshot())) != Success ==>
        outcome == Returned(RunCheck(old(em.Snapshot()))) && em.Snapshot() == old(em.Snapshot())
      ensures em != null && RunCheck(old(em.Snapshot())) == Success ==>
        RunSpec(old(em.Snapshot()), turns, outcome, batches, steps, em.Snapshot())
    {
      batches, steps := 0, [];
      if em == null {
        return Returned(ErrorNull), batches, steps;
      }
      if em.queueFd < 0 {
        return Returned(ErrorBadFd), batches, steps;
      }
      if em.maxEvents <= 0 {
        return Returned(ErrorMaxEventsTooSmall), batches, steps;
      }
      if em.events == null {
        return Returned(ErrorEventsNull), batches, steps;
      }
      if em.queueFd !in em.kernel.files {
        return Returned(ErrorBadFd), batches, steps;
      }
      outcome, batches, steps := em.RunLoop(turns);
    }

    // --------------------------------------------------------- initialisation

    /** A machine before event_machine_init(), with the fields that the user
        sets, in a process without pipe and epoll instance. */
    constructor (maxEvents: int, events: array?<Event>, storage: Storage, kernel: Kernel, timers: map<nat, EventTimer>)
      requires forall a :: a in timers ==>
        timers[a].address == a && timers[a].Value() == Shredded(a) && timers[a].eventMachine == null
      ensures Valid() && this.timers == timers && this.events == events && this.maxEvents == maxEvents
      ensures descriptorStorage == storage && this.kernel == kernel
      ensures todo == [] && !broke && active == Idle
      ensures log == Log(0, 0, 0, 0, [], [], map a | a in timers :: Ledger(0, 0, 0, 0, 0, 0, 0))
    {
      this.queueFd := -1;
      this.breakLoopRead := -1;
      this.breakLoopWrite := -1;
      this.breakLoopEventDescriptor := Descriptor(BreakAddr, -1, {}, NullData, NullHandler);
      this.maxEvents := maxEvents;
      this.events := events;
      this.doFreeEvents := false;
      this.descriptorStorage := storage;
      this.kernel := kernel;
      this.timers := timers;
      this.todo, this.broke, this.active := [], false, Idle;
      this.log := Log(0, 0, 0, 0, [], [], map a | a in timers :: Ledger(0, 0, 0, 0, 0, 0, 0));
    }

    /** The machine has just been constructed; the process has no pipe and no
        epoll instance yet. */
    ghost predicate Pristine()
      reads this, timers.Values
    {
      Valid() && Blank(Snapshot())
    }

    /** The kernel returns descriptors that are not in use. */
    predicate FreshFds(pipe: Option<(Fd, Fd)>, queue: Option<Fd>)
      reads this
    {
      && (pipe.Some? ==>
            pipe.value.0 >= 0 && pipe.value.1 >= 0 && pipe.value.0 != pipe.value.1
            && pipe.value.0 !in kernel.files && pipe.value.1 !in kernel.files)
      && (queue.Some? ==> queue.value >= 0 && queue.value !in kernel.files)
      && (pipe.Some? && queue.Some? ==> queue.value != pipe.value.0 && queue.value != pipe.value.1)
    }

    /** event_machine_init(). `pipe` and `queue` are the descriptors that
        pipe2() and epoll_create1() return, or None when they fail; `deny` is a
        failing epoll_ctl(). */
    static method Init(em: EventMachine?, pipe: Option<(Fd, Fd)>, queue: Option<Fd>, deny: bool)
      returns (r: Code)
      requires em != null ==> em.Pristine()
      requires em != null && em.events != null ==> em.maxEvents <= em.events.Length
      requires em != null ==> em.FreshFds(pipe, queue)
      modifies em
      ensures em == null ==> r == ErrorNull
      ensures em != null ==>
        r == if pipe.None? then ErrorPipe else if queue.None? then ErrorEventCreateQueue
             else if deny then ErrorEventCtl else Success
      ensures em != null && r != Success ==> em.kernel == LeftBehind(old(em.kernel), pipe, queue)
      ensures em != null && r == Success ==>
        && em.Valid() && Initial(em.Snapshot()) && RunCheck(em.Snapshot()) == Success
        && em.events != null && em.maxEvents <= em.events.Length
        && em.maxEvents == (if old(em.maxEvents) <= 0 then DEFAULT_MAX_EVENTS else old(em.maxEvents))
        && (em.doFreeEvents <==> old(em.maxEvents) <= 0 || old(em.events) == null)
        && (!em.doFreeEvents ==> em.events == old(em.events))
    {
      if em == null {
        return ErrorNull;
      }
      BlankForAny(em.Snapshot());
      hide Blank, Initial, LeftBehind;
      em.SetUpBuffer();
      r := em.SetUpBreakLoop(pipe, queue, deny);
    }

    /** The buffer for events: the user's, or one that is allocated. */
    method SetUpBuffer()
      requires events != null ==> maxEvents <= events.Length
      modifies this`events, this`maxEvents, this`doFreeEvents
      ensures Snapshot() == old(Snapshot()).(em := Fixed())
      ensures events != null && 0 < maxEvents <= events.Length
      ensures maxEvents == (if old(maxEvents) <= 0 then DEFAULT_MAX_EVENTS else old(maxEvents))
      ensures doFreeEvents <==> old(maxEvents) <= 0 || old(events) == null
      ensures !doFreeEvents ==> events == old(events)
    {
      if maxEvents <= 0 {
        events := null;
        maxEvents := DEFAULT_MAX_EVENTS;
      }
      if events == null {
        events := new Event[maxEvents];
        doFreeEvents := true;
      } else {
        doFreeEvents := false;
      }
    }

    /** pipe2(), and the descriptor of its read end. */
    method OpenPipe(p0: Fd, p1: Fd)
      modifies this`kernel, this`breakLoopRead, this`breakLoopWrite, this`breakLoopEventDescriptor
      ensures kernel == Piped(old(kernel), p0, p1)
      ensures breakLoopRead == p0 && breakLoopWrite == p1 && breakLoopEventDescriptor == BreakDescriptor(p0)
    {
      kernel := kernel.(
        files := kernel.files[p0 := PipeEnd][p1 := PipeEnd], pipeRead := p0, pipeWrite := p1, pending := 0);
      breakLoopRead, breakLoopWrite := p0, p1;
      breakLoopEventDescriptor := Descriptor(BreakAddr, p0, {In}, NullData, NullHandler);
    }

    /** From a pristine machine to an initial one. */
    method SetUpBreakLoop(pipe: Option<(Fd, Fd)>, queue: Option<Fd>, deny: bool) returns (r: Code)
      requires Pristine() && FreshFds(pipe, queue)
      modifies this`kernel, this`breakLoopRead, this`breakLoopWrite, this`breakLoopEventDescriptor, this`queueFd
      ensures Valid()
      ensures r == if pipe.None? then ErrorPipe else if queue.None? then ErrorEventCreateQueue
                   else if deny then ErrorEventCtl else Success
      ensures r == Success ==> Initial(Snapshot())
      ensures r != Success ==> kernel == LeftBehind(old(kernel), pipe, queue)
    {
      r := Connect(pipe, queue, deny);
      if r == Success {
        ConnectedIsInitial(old(Snapshot()), Snapshot());
      }
    }

    /** The pipe, the epoll instance, and the entry that connects them. */
    method Connect(pipe: Option<(Fd, Fd)>, queue: Option<Fd>, deny: bool) returns (r: Code)
      requires FreshFds(pipe, queue) && kernel.interest == map[]
      modifies this`kernel, this`breakLoopRead, this`breakLoopWrite, this`breakLoopEventDescriptor, this`queueFd
      ensures r == if pipe.None? then ErrorPipe else if queue.None? then ErrorEventCreateQueue
                   else if deny then ErrorEventCtl else Success
      ensures r != Success ==> kernel == LeftBehind(old(kernel), pipe, queue)
      ensures r == Success ==>
        && breakLoopRead == pipe.value.0 && breakLoopWrite == pipe.value.1 && queueFd == queue.value
        && breakLoopEventDescriptor == BreakDescriptor(breakLoopRead)
        && kernel == Connected(old(kernel), breakLoopRead, breakLoopWrite, queueFd).(
             interest := map[breakLoopRead := breakLoopEventDescriptor])
    {
      if pipe.None? {
        return ErrorPipe;
      }
      var (p0, p1) := pipe.value;
      OpenPipe(p0, p1);
      if queue.None? {
        return ErrorEventCreateQueue;
      }
      kernel := OpenFile(kernel, queue.value, Queue);
      queueFd := queue.value;
      RegisterBreak(old(kernel), p0, p1, queueFd, deny);
      assert kernel == Connected(old(kernel), p0, p1, queueFd);
      var ctl := CtlAdd(kernel, queueFd, Some(breakLoopEventDescriptor), deny);
      if ctl.None? {
        return ErrorEventCtl;
      }
      kernel := ctl.value;
      r := Success;
    }
  }
}
