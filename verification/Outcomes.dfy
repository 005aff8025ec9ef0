/** The result codes: for every call, every state and every failure around it,
    which result is returned on which condition, and what is left. */
module Outcomes {
  import opened Epoll
  import opened ReadyList
  import opened Machine
  import opened Timers
  import opened TimerLife
  import opened BreakLoop
  import opened Expiry

  predicate HasQueue(s: State)
  {
    Open(s.kernel, s.em.queueFd) && s.kernel.files[s.em.queueFd] == Queue
  }

  /** The storage can take an entry, as far as refusals go. */
  predicate Willing(st: Storage, refuse: bool)
  {
    st.NoStorage? || !refuse
  }

  /** The kernel registers `ed`. */
  predicate Registrable(s: State, ed: Descriptor, deny: bool)
  {
    && HasQueue(s) && Open(s.kernel, ed.fd) && Pollable(s.kernel.files[ed.fd])
    && ed.fd !in s.kernel.interest && !deny
  }

  /** event_machine_add(). A call that is rejected changes nothing; one that the
      storage fails leaves the descriptor registered. */
  lemma {:induction false} AddOutcome(s: State, ed: Option<Descriptor>, whim: Whim)
    ensures var (r, s') := Add(s, ed, whim);
      && (r == ErrorDescriptorNull <==> ed.None?)
      && (ed.None? ==> s' == s)
    ensures ed.Some? ==>
      var (r, s') := Add(s, ed, whim);
      var valid := Open(s.kernel, s.em.queueFd) && Open(s.kernel, ed.value.fd);
      var accepted := Registrable(s, ed.value, whim.deny);
      var known := s.storage.Full? && ed.value.fd in s.storage.entries;
      && (r == ErrorBadFd <==> !valid)
      && (r == ErrorEventCtl <==> valid && !accepted)
      && (r == ErrorStorageRefused <==> accepted && !Willing(s.storage, whim.refuse))
      && (r == ErrorStorageDuplicateEntry <==> accepted && !whim.refuse && known)
      && (r == Success <==> accepted && Willing(s.storage, whim.refuse) && !known)
      && (!accepted ==> s' == s)
      && (accepted ==>
            && s'.kernel.files == s.kernel.files && s'.kernel.pending == s.kernel.pending
            && s'.kernel.interest == s.kernel.interest[ed.value.fd := ed.value])
      && (accepted && r != Success ==> s'.storage == s.storage)
      && (r == Success && !s.storage.NoStorage? ==> s'.storage.entries == s.storage.entries[ed.value.fd := ed.value])
  {
  }

  /** event_machine_delete(). */
  lemma {:induction false} DeleteOutcome(s: State, fd: Fd)
    ensures var (r, prev, s') := Delete(s, fd);
      var valid := Open(s.kernel, s.em.queueFd) && Open(s.kernel, fd);
      var accepted := HasQueue(s) && valid && fd in s.kernel.interest;
      && (r == ErrorBadFd <==> !valid)
      && (r == ErrorEventCtl <==> valid && !accepted)
      && (r == ErrorStorageNoSuchEntry <==> accepted && s.storage.Full? && fd !in s.storage.entries)
      && (r == Success <==> accepted && (s.storage.Full? ==> fd in s.storage.entries))
      && (!accepted ==> s' == s)
      && (accepted ==> s'.kernel.interest == s.kernel.interest - {fd} && s'.kernel.files == s.kernel.files)
      && (r == Success && s.storage.Full? ==>
            prev == Some(s.storage.entries[fd]) && s'.storage.entries == s.storage.entries - {fd})
      && (r != Success || !s.storage.Full? ==> prev == None && s'.storage == s.storage)
  {
  }

  /** event_machine_modify() of a registered descriptor. A refused insertion is
      reported, when the kernel already holds the new descriptor and the storage
      no longer holds the old one. */
  lemma {:induction false} ModifyOutcome(s: State, fd: Fd, ed: Descriptor, whim: Whim)
    requires Ready(s) && fd in s.kernel.interest && ed.fd == fd
    ensures var (r, prev, s') := Modify(s, fd, Some(ed), whim);
      var known := s.storage.Full? ==> fd in s.storage.entries;
      && (r == ErrorEventCtl <==> whim.deny)
      && (r == ErrorStorageNoSuchEntry <==> !whim.deny && !known)
      && (r == ErrorStorageRefused <==> !whim.deny && known && !Willing(s.storage, whim.refuse))
      && (r == Success <==> !whim.deny && known && Willing(s.storage, whim.refuse))
      && (whim.deny ==> s' == s)
      && (!whim.deny ==>
            && s'.kernel.files == s.kernel.files && s'.kernel.pending == s.kernel.pending
            && s'.kernel.interest == s.kernel.interest[fd := ed])
      && prev == (if !whim.deny && s.storage.Full? && known then Some(s.storage.entries[fd]) else None)
      && (r == Success && !s.storage.NoStorage? ==> s'.storage.entries == s.storage.entries[fd := ed])
      && (r == ErrorStorageRefused && s.storage.Full? ==> s'.storage == Full(s.storage.entries - {fd}))
      && (r != Success && !(r == ErrorStorageRefused && s.storage.Full?) ==> s'.storage == s.storage)
  {
    if s.storage.Full? && fd in s.storage.entries {
      assert (s.storage.entries - {fd})[fd := ed] == s.storage.entries[fd := ed];
    }
    hide HandlesOk, LevelQueued, Wake, Revents;
  }

  /** event_machine_modify() otherwise: rejected, with nothing changed. */
  lemma {:induction false} ModifyRejected(s: State, fd: Fd, ed: Option<Descriptor>, whim: Whim)
    ensures var (r, prev, s') := Modify(s, fd, ed, whim);
      var valid := Open(s.kernel, s.em.queueFd) && Open(s.kernel, fd);
      var accepted := ed.Some? && HasQueue(s) && ed.value.fd in s.kernel.files
        && ed.value.fd in s.kernel.interest && !whim.deny;
      && (r == ErrorBadFd <==> !valid)
      && (r == ErrorEventCtl <==> valid && !accepted)
      && (!valid || !accepted ==> s' == s && prev == None)
  {
    hide Wake;
  }

  /** event_machine_terminate(): success means that a byte was written or that
      the pipe was full; every other write error is reported. */
  lemma {:induction false} TerminateOutcome(s: State, fault: bool)
    ensures var (r, s') := Terminate(s, fault);
      var valid := Open(s.kernel, s.em.breakWrite);
      var usable := valid && !fault && s.em.breakWrite == s.kernel.pipeWrite && s.kernel.pipeRead in s.kernel.files;
      && (r == ErrorBadFd <==> !valid)
      && (r == ErrorWrite <==> valid && !usable)
      && (r == Success <==> usable)
      && (r != Success ==> s' == s)
      && (r == Success && s.kernel.pending < s.kernel.capacity ==>
            s'.kernel.pending == s.kernel.pending + 1 && s'.log.written == s.log.written + 1)
      && (r == Success && s.kernel.pending >= s.kernel.capacity ==> s' == s)
    ensures var (r, s') := Terminate(s, fault);
      r == Success && s'.log.written == s.log.written ==> s.kernel.pending >= s.kernel.capacity
  {
    hide Revents;
  }

  /** The checks of event_machine_run(). */
  lemma {:induction false} RunCheckOutcome(s: State)
    ensures var r := RunCheck(s);
      var em := s.em;
      && (r == Success <==>
            em.queueFd >= 0 && em.maxEvents > 0 && em.buffer.Some? && em.queueFd in s.kernel.files)
      && (r == ErrorMaxEventsTooSmall <==> em.queueFd >= 0 && em.maxEvents <= 0)
      && (r == ErrorEventsNull <==> em.queueFd >= 0 && em.maxEvents > 0 && em.buffer.None?)
      && (r == ErrorBadFd <==>
            em.queueFd < 0 || (em.maxEvents > 0 && em.buffer.Some? && em.queueFd !in s.kernel.files))
  {
  }

  /** event_timer_create(). A missing callback changes nothing, a failing
      timerfd_create() leaves the handle half filled, and any later failure
      leaves it shredded. */
  lemma {:induction false} CreateCodes(s: State, t: nat, callback: Option<nat>, data: Data, newFd: Fd, whim: Whim)
    requires KernelOk(s.kernel) && t in s.handles
    ensures var (r, s') := Create(s, t, callback, data, newFd, whim);
      var valid := callback.Some? && newFd >= 0 && newFd !in s.kernel.files;
      var found := Open(s.kernel, s.em.queueFd) || s.em.queueFd == newFd;
      var accepted := valid && HasQueue(s) && !whim.deny;
      var known := s.storage.Full? && newFd in s.storage.entries;
      && (r == ErrorCallbackNull <==> callback.None?)
      && (r == ErrorTimerfdCreate <==> callback.Some? && !valid)
      && (r == ErrorBadFd <==> valid && !found)
      && (r == ErrorEventCtl <==> valid && found && !accepted)
      && (r == ErrorStorageRefused <==> accepted && !Willing(s.storage, whim.refuse))
      && (r == ErrorStorageDuplicateEntry <==> accepted && !whim.refuse && known)
      && (r == Success <==> accepted && Willing(s.storage, whim.refuse) && !known)
      && (r == ErrorCallbackNull ==> s' == s)
      && (r == ErrorTimerfdCreate ==> s' == WithHandle(s, t, Handle(s.handles[t].ed, true, data, callback)))
      && (valid && r != Success ==> s' == WithHandle(s, t, Shredded(t)))
  {
    if callback.Some? && newFd >= 0 && newFd !in s.kernel.files {
      var h := Handle(TimerDescriptor(t, newFd), true, data, callback);
      var s1 := Filled(s, t, h, newFd);
      AddOutcome(s1, Some(h.ed), whim);
      FreshIsAbsent(s.kernel, newFd);
      if Create(s, t, callback, data, newFd, whim).0 != Success {
        FailedCreateIsAtomic(s, t, callback, data, newFd, whim);
      }
      hide Add, Closed, KernelOk, Shredded, CloseFd;
    }
  }

  /** event_timer_destroy(). */
  lemma {:induction false} DestroyCodes(s: State, t: nat, closeFault: bool)
    requires KernelOk(s.kernel) && t in s.handles
    ensures var (r, _) := Destroy(s, t, closeFault);
      var fd := s.handles[t].ed.fd;
      var present := s.handles[t].hasMachine;
      var valid := present && Open(s.kernel, s.em.queueFd) && Open(s.kernel, fd);
      var known := s.storage.Full? ==> fd in s.storage.entries;
      && (r == ErrorNull <==> !present)
      && (r == ErrorBadFd <==> present && !valid)
      && (r == ErrorEventCtl <==> valid && !Deletable(s, fd))
      && (r == ErrorStorageNoSuchEntry <==> valid && Deletable(s, fd) && !known)
      && (r == ErrorClose <==> valid && Deletable(s, fd) && known && closeFault)
      && (r == Success <==> valid && Deletable(s, fd) && known && !closeFault)
  {
    DeleteOutcome(s, s.handles[t].ed.fd);
    hide Delete, Closed;
  }

  lemma SetTimeOutcome(s: State, t: nat, value: Timespec, interval: Timespec)
    requires t in s.handles
    ensures var (r, s') := SetTime(s, t, value, interval);
      var fd := s.handles[t].ed.fd;
      var usable := fd in s.kernel.files && s.kernel.files[fd].Timer?
        && ValidTimespec(value) && ValidTimespec(interval);
      && (r == Success <==> usable)
      && (r == ErrorTimerfdSettime <==> !usable)
      && (r != Success ==> s' == s)
      && (r == Success ==> s'.kernel == SetTimer(s.kernel, fd, Nanoseconds(value), Nanoseconds(interval)))
  {
    if ValidTimespec(value) && ValidTimespec(interval) {
      ValidIsNat(value);
      ValidIsNat(interval);
    }
    hide Nanoseconds, ValidTimespec, Rearm, SetTimer;
  }

  lemma ValidIsNat(value: Timespec)
    requires ValidTimespec(value)
    ensures Nanoseconds(value) >= 0
  {
  }

  lemma ZeroTimespec()
    ensures ValidTimespec(Timespec(0, 0)) && Nanoseconds(Timespec(0, 0)) == 0
  {
  }

  /** event_timer_start() and event_timer_stop() on any handle: what the kernel
      timer is set to. */
  lemma {:induction false} StartOutcome(s: State, t: nat, msec: int, isOneShot: bool)
    requires t in s.handles
    ensures var (r, s') := Start(s, t, msec, isOneShot);
      var fd := s.handles[t].ed.fd;
      var usable := fd in s.kernel.files && s.kernel.files[fd].Timer? && msec >= 0;
      && (r == Success <==> usable)
      && (r == ErrorTimerfdSettime <==> !usable)
      && (r != Success ==> s' == s)
      && (r == Success ==>
            var p: nat := Period(msec);
            s'.kernel == s.kernel.(files :=
              s.kernel.files[fd := Timer(TimerFd(p > 0, s.kernel.now + p, if isOneShot then 0 else p, 0))]))
  {
    EncodingNegative(msec);
    hide Encode, SetTime, ValidTimespec, Nanoseconds, Rearm;
    SetTimeOutcome(s, t, Encode(msec), if isOneShot then Timespec(0, 0) else Encode(msec));
    ZeroTimespec();
  }

  lemma {:induction false} StopOutcome(s: State, t: nat)
    requires t in s.handles
    ensures var (r, s') := Stop(s, t);
      var fd := s.handles[t].ed.fd;
      var usable := fd in s.kernel.files && s.kernel.files[fd].Timer?;
      && (r == Success <==> usable)
      && (r == ErrorTimerfdSettime <==> !usable)
      && (r != Success ==> s' == s)
      && (r == Success ==>
            s'.kernel == s.kernel.(files := s.kernel.files[fd := Timer(TimerFd(false, s.kernel.now, 0, 0))]))
  {
  }
}
