/** What the registry functions of src/event-machine.c do to the state of the
    process: the kernel, the machine, the descriptor storage, the memory that
    holds the timer handles, and a record of what has happened. */
module Machine {
  import opened Epoll

  datatype Code =
    | Success
    | ErrorBadFd
    | ErrorMaxEventsTooSmall
    | ErrorNull
    | ErrorEventsNull
    | ErrorDescriptorNull
    | ErrorTimerNull
    | ErrorCallbackNull
    | ErrorPipe
    | ErrorClose
    | ErrorRead
    | ErrorWrite
    | ErrorEventCreateQueue
    | ErrorEventCtl
    | ErrorEventWait
    | ErrorTimerfdCreate
    | ErrorTimerfdSettime
    | ErrorStorageDuplicateEntry
    | ErrorStorageNoSuchEntry
    | ErrorStorageRefused // any other code of the user's storage

  /** Descriptor storage in the supported configurations: neither function
      given, `insert` only (it overwrites), or `insert` and `remove`. */
  datatype Storage =
    | NoStorage
    | InsertOnly(entries: map<Fd, Descriptor>)
    | Full(entries: map<Fd, Descriptor>)

  /** Failures that are not the caller's doing: the kernel denies epoll_ctl
      for lack of resources, the storage refuses an insertion. */
  datatype Whim = Whim(deny: bool, refuse: bool)

  /** The fields of EM that stay fixed after event_machine_init(). */
  datatype Em = Em(
    queueFd: Fd,
    breakRead: Fd,
    breakWrite: Fd,
    breakEd: Descriptor,
    maxEvents: int,
    buffer: Option<nat>)

  /** Event_timer. The machine pointer is present or NULL. */
  datatype Handle = Handle(ed: Descriptor, hasMachine: bool, data: Data, callback: Option<nat>)

  /** What the running dispatcher is in the middle of. */
  datatype Active =
    | Idle
    | InUser(fd: Fd)
    | Expired(timer: nat, fd: Fd)
    | Replaying(timer: nat, remaining: nat, gen: nat)

  /** Bookkeeping for the latest arming of a timer: when, with what, and the
      callbacks made since, split into those owed by this arming (`calls`) and
      those left from the replay it interrupted (`late`, at most `budget`). */
  datatype Ledger = Ledger(gen: nat, at: nat, value: nat, interval: nat, calls: nat, late: nat, budget: nat)

  /** One handler call. `live` says that the descriptor was, at that moment,
      the one registered for its file descriptor. */
  datatype Dispatched = Dispatched(event: Event, live: bool)

  datatype Log = Log(
    written: nat,
    consumed: nat,
    finished: nat,
    faults: nat,
    fetched: seq<Event>,
    trace: seq<Dispatched>,
    ledger: map<nat, Ledger>)

  /** `todo` is the part of the current batch that is not yet dispatched and
      `broke` the flag break_loop of event_machine_run(). */
  datatype State = State(
    kernel: Kernel,
    em: Em,
    storage: Storage,
    handles: map<nat, Handle>,
    todo: seq<Event>,
    broke: bool,
    active: Active,
    log: Log)

  // ---------------------------------------------------------------- storage

  function Insert(st: Storage, fd: Fd, ed: Descriptor, refuse: bool): (Code, Storage)
  {
    match st
    case NoStorage => (Success, st)
    case InsertOnly(m) => if refuse then (ErrorStorageRefused, st) else (Success, InsertOnly(m[fd := ed]))
    case Full(m) =>
      if refuse then (ErrorStorageRefused, st)
      else if fd in m then (ErrorStorageDuplicateEntry, st)
      else (Success, Full(m[fd := ed]))
  }

  /** remove_event_descriptor(). The second component is what is written
      through `old_ed`, or None when it is left untouched. */
  function Remove(st: Storage, fd: Fd): (Code, Option<Descriptor>, Storage)
  {
    match st
    case Full(m) =>
      if fd in m then (Success, Some(m[fd]), Full(m - {fd})) else (ErrorStorageNoSuchEntry, None, st)
    case _ => (Success, None, st)
  }

  /** Removal followed by insertion, as event_machine_modify() does it. */
  function Replace(st: Storage, fd: Fd, ed: Descriptor, refuse: bool): (Code, Option<Descriptor>, Storage)
  {
    var (r, prev, st1) := Remove(st, fd);
    if r != Success then (r, prev, st1)
    else var (r2, st2) := Insert(st1, fd, ed, refuse); (r2, prev, st2)
  }

  /** The checks at the start of event_machine_run(), in their order. */
  function RunCheck(s: State): Code
  {
    if s.em.queueFd < 0 then ErrorBadFd
    else if s.em.maxEvents <= 0 then ErrorMaxEventsTooSmall
    else if s.em.buffer.None? then ErrorEventsNull
    else if s.em.queueFd !in s.kernel.files then ErrorBadFd
    else Success
  }

  // ---------------------------------------------------------------- registry

  predicate Open(k: Kernel, fd: Fd)
  {
    fd >= 0 && fd in k.files
  }

  function Add(s: State, ed: Option<Descriptor>, whim: Whim): (Code, State)
  {
    if ed.None? then (ErrorDescriptorNull, s)
    else if !Open(s.kernel, s.em.queueFd) || !Open(s.kernel, ed.value.fd) then (ErrorBadFd, s)
    else match CtlAdd(s.kernel, s.em.queueFd, ed, whim.deny)
      case None => (ErrorEventCtl, s)
      case Some(k) =>
        var (r, st) := Insert(s.storage, ed.value.fd, ed.value, whim.refuse);
        (r, s.(kernel := k, storage := st))
  }

  function Delete(s: State, fd: Fd): (Code, Option<Descriptor>, State)
  {
    if !Open(s.kernel, s.em.queueFd) || !Open(s.kernel, fd) then (ErrorBadFd, None, s)
    else match CtlDelete(s.kernel, s.em.queueFd, fd)
      case None => (ErrorEventCtl, None, s)
      case Some(k) =>
        var (r, prev, st) := Remove(s.storage, fd);
        (r, prev, s.(kernel := k, storage := st))
  }

  function Modify(s: State, fd: Fd, ed: Option<Descriptor>, whim: Whim): (Code, Option<Descriptor>, State)
  {
    if !Open(s.kernel, s.em.queueFd) || !Open(s.kernel, fd) then (ErrorBadFd, None, s)
    else if ed.None? then (ErrorEventCtl, None, s)
    else match CtlModify(s.kernel, s.em.queueFd, ed, whim.deny)
      case None => (ErrorEventCtl, None, s)
      case Some(k) =>
        var (r, prev, st) := Replace(s.storage, fd, ed.value, whim.refuse);
        (r, prev, s.(kernel := k, storage := st))
  }

  /** event_machine_terminate(). `fault` is a write error other than a full
      pipe. */
  function Terminate(s: State, fault: bool): (Code, State)
  {
    if !Open(s.kernel, s.em.breakWrite) then (ErrorBadFd, s)
    else if fault then (ErrorWrite, s)
    else match WriteByte(s.kernel, s.em.breakWrite)
      case Failed => (ErrorWrite, s)
      case WouldBlock => (Success, s)
      case Stored(k) => (Success, s.(kernel := k, log := s.log.(written := s.log.written + 1)))
  }
}
