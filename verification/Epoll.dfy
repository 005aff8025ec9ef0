/** The part of the operating system that the library stands on: the table of
    open file descriptors, one epoll instance (interest set and FIFO ready
    list), one non-blocking pipe, timer descriptors and a monotonic clock.

    Named assumptions about the kernel:
    - the ready list is served round robin, as epoll_wait(2) describes: a wait
      takes entries from the head, drops those that are no longer ready, and
      puts the level-triggered entries it delivered back at the tail; newly
      ready descriptors join at the tail;
    - a one-byte write to the non-blocking pipe follows POSIX.1-2017, System
      Interfaces volume, write(): it stores the byte or fails with EAGAIN;
    - closing a descriptor removes it from the interest set (descriptors are
      not duplicated). */
module Epoll {

  datatype Option<+T> = None | Some(value: T)

  type Fd = int

  datatype Flag = In | Out | Err | Hup | EdgeTriggered

  /** Where a descriptor structure lives: inside the event machine, inside a
      timer handle, or in memory owned by the user. */
  datatype Addr = BreakAddr | TimerAddr(timer: nat) | UserAddr(id: nat)

  datatype Data = NullData | UserData(id: nat) | TimerData(timer: nat)

  datatype Handler = NullHandler | UserHandler(id: nat) | TimeoutHandler

  /** EM_event_descriptor, together with its own address. */
  datatype Descriptor = Descriptor(addr: Addr, fd: Fd, events: set<Flag>, data: Data, handler: Handler)

  /** One struct epoll_event as epoll_wait reports it. */
  datatype Event = Event(ed: Descriptor, revents: set<Flag>)

  /** State of one timerfd. */
  datatype TimerFd = TimerFd(armed: bool, next: nat, interval: nat, ticks: nat)

  datatype File =
    | Queue
    | PipeEnd
    | Plain(cond: set<Flag>, pollable: bool)
    | Timer(timer: TimerFd)

  datatype Kernel = Kernel(
    files: map<Fd, File>,
    interest: map<Fd, Descriptor>,
    ready: seq<Fd>,
    pipeRead: Fd,
    pipeWrite: Fd,
    pending: nat,
    capacity: nat,
    now: nat)

  // ---------------------------------------------------------------- polling

  /** What a descriptor would report if it were polled now. */
  function Condition(k: Kernel, fd: Fd): set<Flag>
    requires fd in k.files
  {
    match k.files[fd]
    case Queue => {}
    case PipeEnd =>
      if fd == k.pipeRead then (if k.pending > 0 then {In} else {})
      else if fd == k.pipeWrite then (if k.pending < k.capacity then {Out} else {})
      else {}
    case Plain(cond, _) => cond
    case Timer(t) => if t.ticks > 0 then {In} else {}
  }

  /** The events that epoll reports for a registered descriptor. */
  function Revents(k: Kernel, fd: Fd): set<Flag>
  {
    if fd in k.interest && fd in k.files
    then Condition(k, fd) * (k.interest[fd].events + {Err, Hup})
    else {}
  }

  predicate IsLevel(k: Kernel, fd: Fd)
  {
    fd in k.interest && EdgeTriggered !in k.interest[fd].events
  }

  predicate Pollable(f: File)
  {
    f.PipeEnd? || f.Timer? || (f.Plain? && f.pollable)
  }

  /** The wake-up callback: a ready entry that is not yet queued joins at the tail. */
  function Wake(k: Kernel, fd: Fd): Kernel
  {
    if Revents(k, fd) != {} && fd !in k.ready then k.(ready := k.ready + [fd]) else k
  }

  function WakeAll(k: Kernel, order: seq<Fd>): Kernel
    decreases order
  {
    if order == [] then k else WakeAll(Wake(k, order[0]), order[1..])
  }

  function Without(q: seq<Fd>, fd: Fd): seq<Fd>
  {
    if q == [] then []
    else if q[0] == fd then Without(q[1..], fd)
    else [q[0]] + Without(q[1..], fd)
  }

  // -------------------------------------------------------------- epoll_ctl

  /** Drops a descriptor from the interest set and from the ready list. */
  function Forget(k: Kernel, fd: Fd): Kernel
  {
    k.(interest := k.interest - {fd}, ready := Without(k.ready, fd))
  }

  /** event_ctl(queue, ed, -1, EPOLL_CTL_ADD). None is a failing system call;
      `deny` is the kernel running out of memory or watches. */
  function CtlAdd(k: Kernel, queue: Fd, ed: Option<Descriptor>, deny: bool): Option<Kernel>
  {
    var fd := if ed.None? then -1 else ed.value.fd;
    if ed.None? || queue !in k.files || k.files[queue] != Queue || fd !in k.files then None
    else if !Pollable(k.files[fd]) || fd in k.interest || deny then None
    else Some(Wake(k.(interest := k.interest[fd := ed.value]), fd))
  }

  /** event_ctl(queue, ed, -1, EPOLL_CTL_MOD). The retry in the source is for
      EEXIST, which this operation does not produce, so it has no effect. */
  function CtlModify(k: Kernel, queue: Fd, ed: Option<Descriptor>, deny: bool): Option<Kernel>
  {
    var fd := if ed.None? then -1 else ed.value.fd;
    if ed.None? || queue !in k.files || k.files[queue] != Queue || fd !in k.files then None
    else if fd !in k.interest || deny then None
    else Some(Wake(k.(interest := k.interest[fd := ed.value]), fd))
  }

  /** event_ctl(queue, NULL, fd, EPOLL_CTL_DEL). */
  function CtlDelete(k: Kernel, queue: Fd, fd: Fd): Option<Kernel>
  {
    if queue !in k.files || k.files[queue] != Queue || fd !in k.files || fd !in k.interest then None
    else Some(Forget(k, fd))
  }

  // ------------------------------------------------------------- epoll_wait

  /** The descriptors that a wait for at most `max` events delivers. */
  function Delivered(k: Kernel, q: seq<Fd>, max: nat): seq<Fd>
  {
    if q == [] || max == 0 then []
    else if Revents(k, q[0]) == {} then Delivered(k, q[1..], max)
    else [q[0]] + Delivered(k, q[1..], max - 1)
  }

  /** The entries that the same wait does not reach. */
  function Leftover(k: Kernel, q: seq<Fd>, max: nat): seq<Fd>
  {
    if q == [] || max == 0 then q
    else if Revents(k, q[0]) == {} then Leftover(k, q[1..], max)
    else Leftover(k, q[1..], max - 1)
  }

  function LevelOnly(k: Kernel, q: seq<Fd>): seq<Fd>
  {
    if q == [] then []
    else if IsLevel(k, q[0]) then [q[0]] + LevelOnly(k, q[1..])
    else LevelOnly(k, q[1..])
  }

  function EventsOf(k: Kernel, q: seq<Fd>): seq<Event>
  {
    if q == [] then []
    else if q[0] in k.interest then [Event(k.interest[q[0]], Revents(k, q[0]))] + EventsOf(k, q[1..])
    else EventsOf(k, q[1..])
  }

  function Batch(k: Kernel, max: nat): seq<Event>
  {
    EventsOf(k, Delivered(k, k.ready, max))
  }

  function Waited(k: Kernel, max: nat): Kernel
  {
    k.(ready := Leftover(k, k.ready, max) + LevelOnly(k, Delivered(k, k.ready, max)))
  }

  // ------------------------------------------------------------------- pipe

  datatype Written = Stored(kernel: Kernel) | WouldBlock | Failed

  function WriteByte(k: Kernel, fd: Fd): Written
  {
    if fd !in k.files || fd != k.pipeWrite || k.pipeRead !in k.files then Failed
    else if k.pending >= k.capacity then WouldBlock
    else Stored(Wake(k.(pending := k.pending + 1), k.pipeRead))
  }

  function ReadByte(k: Kernel, fd: Fd): Option<Kernel>
  {
    if fd !in k.files || fd != k.pipeRead || k.pending == 0 then None
    else Some(Wake(k.(pending := k.pending - 1), k.pipeWrite))
  }

  // ----------------------------------------------------- descriptors, clock

  function OpenFile(k: Kernel, fd: Fd, file: File): Kernel
  {
    k.(files := k.files[fd := file])
  }

  function CloseFd(k: Kernel, fd: Fd): Kernel
  {
    Forget(k, fd).(files := k.files - {fd})
  }

  /** Data arrives at, or is consumed from, an ordinary descriptor. */
  function SetCondition(k: Kernel, fd: Fd, cond: set<Flag>): Kernel
  {
    if fd in k.files && k.files[fd].Plain?
    then Wake(k.(files := k.files[fd := k.files[fd].(cond := cond)]), fd)
    else k
  }

  /** What a timer has become once the clock shows `now`: it expires once for
      every expiry time passed, one expiry after the other. */
  function Elapse(t: TimerFd, now: nat): TimerFd
    decreases if t.armed && t.interval > 0 && t.next <= now then now - t.next + 1 else 0
  {
    if !t.armed || now < t.next then t
    else if t.interval == 0 then TimerFd(false, t.next, 0, t.ticks + 1)
    else Elapse(TimerFd(true, t.next + t.interval, t.interval, t.ticks + 1), now)
  }

  function ElapseFile(f: File, now: nat): File
  {
    match f
    case Timer(t) => Timer(Elapse(t, now))
    case _ => f
  }

  function ElapseAll(k: Kernel, dt: nat): Kernel
  {
    var now := k.now + dt;
    k.(now := now, files := map fd | fd in k.files :: ElapseFile(k.files[fd], now))
  }

  /** `order` is the order in which the kernel queues the timers that expired.
      An order that misses one is not a behaviour of the kernel. */
  predicate Covers(k: Kernel, order: seq<Fd>)
  {
    forall fd | fd in k.files :: k.files[fd].Timer? && Revents(k, fd) != {} ==> fd in order || fd in k.ready
  }

  function Advance(k: Kernel, dt: nat, order: seq<Fd>): Kernel
  {
    if Covers(ElapseAll(k, dt), order) then WakeAll(ElapseAll(k, dt), order) else k
  }

  function SetTimer(k: Kernel, fd: Fd, value: nat, interval: nat): Kernel
  {
    k.(files := k.files[fd := Timer(TimerFd(value > 0, k.now + value, interval, 0))])
  }

  function DrainTimer(k: Kernel, fd: Fd): Kernel
    requires fd in k.files && k.files[fd].Timer?
  {
    k.(files := k.files[fd := Timer(k.files[fd].timer.(ticks := 0))])
  }
}
