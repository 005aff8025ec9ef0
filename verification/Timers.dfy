/** What src/event-timer.c does: the encoded timeout, and the life of a timer
    handle. A handle is named by its address, a key of `handles`. */
module Timers {
  import opened Epoll
  import opened Machine

  datatype Timespec = Timespec(sec: int, nsec: int)

  /** Division and remainder of C, which truncate towards zero. */
  function TruncDiv(a: int, b: int): int
    requires b > 0
  {
    if a >= 0 then a / b else -((-a) / b)
  }

  function TruncMod(a: int, b: int): int
    requires b > 0
  {
    a - b * TruncDiv(a, b)
  }

  /** The timeout that event_timer_start() hands to the kernel. The remainder
      is multiplied by 1000, although it counts milliseconds and the field
      counts nanoseconds. */
  function Encode(msec: int): Timespec
  {
    Timespec(TruncDiv(msec, 1000), TruncMod(msec, 1000) * 1000)
  }

  predicate ValidTimespec(t: Timespec)
  {
    0 <= t.sec && 0 <= t.nsec < 1000000000
  }

  function Nanoseconds(t: Timespec): int
  {
    t.sec * 1000000000 + t.nsec
  }

  // ----------------------------------------------------------------- handles

  function TimerDescriptor(t: nat, fd: Fd): Descriptor
  {
    Descriptor(TimerAddr(t), fd, {In}, TimerData(t), TimeoutHandler)
  }

  /** The handle after shred(). */
  function Shredded(t: nat): Handle
  {
    Handle(Descriptor(TimerAddr(t), -1, {}, NullData, NullHandler), false, NullData, None)
  }

  /** Iterations that the replay in progress, if it is one of `t`, still has
      to make. */
  function Remaining(s: State, t: nat): nat
  {
    if s.active.Replaying? && s.active.timer == t then s.active.remaining else 0
  }

  function Rearm(s: State, t: nat, value: nat, interval: nat): Log
  {
    var gen := if t in s.log.ledger then s.log.ledger[t].gen + 1 else 0;
    s.log.(ledger := s.log.ledger[t := Ledger(gen, s.kernel.now, value, interval, 0, 0, Remaining(s, t))])
  }

  /** timerfd_settime() on the descriptor of timer `t`. */
  function SetTime(s: State, t: nat, value: Timespec, interval: Timespec): (Code, State)
    requires t in s.handles
  {
    var fd := s.handles[t].ed.fd;
    if fd !in s.kernel.files || !s.kernel.files[fd].Timer?
      || !ValidTimespec(value) || !ValidTimespec(interval)
    then (ErrorTimerfdSettime, s)
    else
      var v, i := Nanoseconds(value), Nanoseconds(interval);
      (Success, s.(kernel := SetTimer(s.kernel, fd, v, i), log := Rearm(s, t, v, i)))
  }

  function Start(s: State, t: nat, msec: int, isOneShot: bool): (Code, State)
    requires t in s.handles
  {
    SetTime(s, t, Encode(msec), if isOneShot then Timespec(0, 0) else Encode(msec))
  }

  function Stop(s: State, t: nat): (Code, State)
    requires t in s.handles
  {
    SetTime(s, t, Timespec(0, 0), Timespec(0, 0))
  }

  /** The handle filled in, around a fresh timer descriptor. */
  function Filled(s: State, t: nat, h: Handle, newFd: Fd): State
  {
    s.(kernel := OpenFile(s.kernel, newFd, Timer(TimerFd(false, 0, 0, 0))), handles := s.handles[t := h])
  }

  function Closed(s: State, fd: Fd): State
  {
    if fd in s.kernel.files then s.(kernel := CloseFd(s.kernel, fd)) else s
  }

  function WithHandle(s: State, t: nat, h: Handle): State
  {
    s.(handles := s.handles[t := h])
  }

  /** The registration of the timer descriptor, undone when it fails. */
  function Enrolled(s: State, t: nat, newFd: Fd, whim: Whim): (Code, State)
  {
    var (r, s2) := Add(s, Some(TimerDescriptor(t, newFd)), whim);
    if r != Success then (r, WithHandle(Closed(s2, newFd), t, Shredded(t)))
    else (Success, s2.(log := Rearm(s2, t, 0, 0)))
  }

  /** event_timer_create(). `newFd` is the descriptor that timerfd_create()
      returns; a negative or already open one stands for its failure. */
  function Create(s: State, t: nat, callback: Option<nat>, data: Data, newFd: Fd, whim: Whim): (Code, State)
    requires t in s.handles
  {
    if callback.None? then (ErrorCallbackNull, s)
    else if newFd < 0 || newFd in s.kernel.files then
      (ErrorTimerfdCreate, WithHandle(s, t, Handle(s.handles[t].ed, true, data, callback)))
    else Enrolled(Filled(s, t, Handle(TimerDescriptor(t, newFd), true, data, callback), newFd), t, newFd, whim)
  }

  /** event_timer_destroy(). `closeFault` is close() reporting an error after
      it has released the descriptor. A shredded handle has no machine; the
      assertion that follows then stops the program, recorded as a fault. */
  function Destroy(s: State, t: nat, closeFault: bool): (Code, State)
    requires t in s.handles
  {
    var fd := s.handles[t].ed.fd;
    if !s.handles[t].hasMachine then (ErrorNull, s.(log := s.log.(faults := s.log.faults + 1)))
    else
      var (r, _, s1) := Delete(s, fd);
      var s2 := Closed(s1, fd);
      if r != Success then (r, s2)
      else if closeFault then (ErrorClose, s2)
      else (Success, WithHandle(s2, t, Shredded(t)))
  }
}
