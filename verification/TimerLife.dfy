/** One timer from creation to destruction: what success and failure leave. */
module TimerLife {
  import opened Epoll
  import opened ReadyList
  import opened Machine
  import opened Timers
  import opened Protocol

  const FRESH_TIMER := TimerFd(false, 0, 0, 0)

  lemma FreshIsAbsent(k: Kernel, fd: Fd)
    requires KernelOk(k) && fd !in k.files
    ensures fd !in k.interest && fd !in k.ready && Without(k.ready, fd) == k.ready
  {
    WithoutAbsent(k.ready, fd);
  }

  /** A fresh timer has nothing to report, so registering it queues nothing. */
  lemma RegisterFresh(k: Kernel, queue: Fd, ed: Descriptor, deny: bool)
    requires KernelOk(k) && ed.fd in k.files && k.files[ed.fd] == Timer(FRESH_TIMER) && ed.fd !in k.interest
    ensures CtlAdd(k, queue, Some(ed), deny) ==
      if queue in k.files && k.files[queue] == Queue && !deny
      then Some(k.(interest := k.interest[ed.fd := ed])) else None
  {
    var k' := k.(interest := k.interest[ed.fd := ed]);
    assert Condition(k', ed.fd) == {};
  }

  /** Registering the fresh timer, then closing it, leaves the kernel as it
      was before timerfd_create(). */
  lemma CloseUndoes(k: Kernel, ed: Descriptor)
    requires KernelOk(k) && ed.fd !in k.files
    ensures var k1 := OpenFile(k, ed.fd, Timer(FRESH_TIMER));
      && CloseFd(k1, ed.fd) == k
      && CloseFd(k1.(interest := k1.interest[ed.fd := ed]), ed.fd) == k
  {
    FreshIsAbsent(k, ed.fd);
    var k1 := OpenFile(k, ed.fd, Timer(FRESH_TIMER));
    assert k1.files - {ed.fd} == k.files;
    assert k1.interest - {ed.fd} == k.interest;
    assert k.interest[ed.fd := ed] - {ed.fd} == k.interest;
  }

  /** Registration of the fresh timer: it succeeds exactly when the queue is
      usable, the kernel does not deny it and the storage accepts it. */
  lemma AddFresh(s: State, t: nat, h: Handle, newFd: Fd, whim: Whim)
    requires KernelOk(s.kernel) && newFd >= 0 && newFd !in s.kernel.files
    requires h.ed == TimerDescriptor(t, newFd)
    ensures var (r, s2) := Add(Filled(s, t, h, newFd), Some(h.ed), whim);
      var k1 := OpenFile(s.kernel, newFd, Timer(FRESH_TIMER));
      var (ri, st) := Insert(s.storage, newFd, h.ed, whim.refuse);
      && (r == Success <==> Open(s.kernel, s.em.queueFd) && s.kernel.files[s.em.queueFd] == Queue
                            && !whim.deny && ri == Success)
      && (r == Success || r == ErrorBadFd || r == ErrorEventCtl || r == ri)
      && s2.handles == s.handles[t := h]
      && s2 == s.(kernel := s2.kernel, storage := s2.storage, handles := s2.handles)
      && (r == Success ==> s2.kernel == k1.(interest := k1.interest[newFd := h.ed]) && s2.storage == st)
      && (r != Success ==>
            (s2.storage == s.storage
             && (s2.kernel == k1 || s2.kernel == k1.(interest := k1.interest[newFd := h.ed]))))
  {
    OpenOk(s.kernel, newFd, Timer(FRESH_TIMER));
    FreshIsAbsent(s.kernel, newFd);
    RegisterFresh(Filled(s, t, h, newFd).kernel, s.em.queueFd, h.ed, whim.deny);
  }

  /** Once timerfd_create() has succeeded, creation is all or nothing. Even
      when the kernel has registered the timer and the storage then refuses
      it, descriptor table, interest set, ready list and storage end as they
      were, and the handle is shredded. */
  lemma FailedCreateIsAtomic(s: State, t: nat, callback: Option<nat>, data: Data, newFd: Fd, whim: Whim)
    requires KernelOk(s.kernel) && t in s.handles
    requires callback.Some? && newFd >= 0 && newFd !in s.kernel.files
    requires Create(s, t, callback, data, newFd, whim).0 != Success
    ensures Create(s, t, callback, data, newFd, whim).1 == WithHandle(s, t, Shredded(t))
  {
    var h := Handle(TimerDescriptor(t, newFd), true, data, callback);
    AddFresh(s, t, h, newFd, whim);
    CloseUndoes(s.kernel, h.ed);
    var s2 := Add(Filled(s, t, h, newFd), Some(h.ed), whim).1;
    assert Closed(s2, newFd).kernel == s.kernel;
    assert s2.handles[t := Shredded(t)] == s.handles[t := Shredded(t)];
  }

  /** What a successful creation leaves, and when creation succeeds. */
  lemma CreateOutcome(s: State, t: nat, callback: Option<nat>, data: Data, newFd: Fd, whim: Whim)
    requires KernelOk(s.kernel) && t in s.handles
    ensures var (r, s') := Create(s, t, callback, data, newFd, whim);
      var ed := TimerDescriptor(t, newFd);
      && (r == Success <==>
            callback.Some? && newFd >= 0 && newFd !in s.kernel.files
            && Open(s.kernel, s.em.queueFd) && s.kernel.files[s.em.queueFd] == Queue
            && !whim.deny && Insert(s.storage, newFd, ed, whim.refuse).0 == Success)
      && (r == Success ==> s' == s.(
            kernel := s.kernel.(files := s.kernel.files[newFd := Timer(FRESH_TIMER)],
                                interest := s.kernel.interest[newFd := ed]),
            storage := Insert(s.storage, newFd, ed, whim.refuse).1,
            handles := s.handles[t := Handle(ed, true, data, callback)],
            log := Rearm(s, t, 0, 0)))
      && (r != Success ==> s' == s.(handles := s.handles[t := s'.handles[t]]))
      && (r != Success ==>
            (s'.handles[t].ed == s.handles[t].ed || s'.handles[t] == Shredded(t)))
      && r != ErrorStorageNoSuchEntry
      && (r == ErrorStorageDuplicateEntry ==> s.storage.Full? && newFd in s.storage.entries)
  {
    var (r, s') := Create(s, t, callback, data, newFd, whim);
    var h := Handle(TimerDescriptor(t, newFd), true, data, callback);
    if callback.None? {
      assert s'.handles == s.handles[t := s.handles[t]];
    } else if newFd < 0 || newFd in s.kernel.files {
    } else {
      AddFresh(s, t, h, newFd, whim);
      if r != Success {
        FailedCreateIsAtomic(s, t, callback, data, newFd, whim);
      }
    }
  }

  /** The registration can be ended: the queue is usable and `fd` is in it. */
  predicate Deletable(s: State, fd: Fd)
  {
    Open(s.kernel, s.em.queueFd) && s.kernel.files[s.em.queueFd] == Queue && fd in s.kernel.interest
  }

  /** What destroying any handle leaves, and when it succeeds. The descriptor
      is closed in any case; with a removing storage that does not know the
      timer, destruction fails after that. */
  lemma {:induction false} DestroyOutcome(s: State, t: nat, closeFault: bool)
    requires KernelOk(s.kernel) && t in s.handles
    ensures var (r, s') := Destroy(s, t, closeFault);
      var fd := s.handles[t].ed.fd;
      if !s.handles[t].hasMachine then r == ErrorNull && s' == Fault(s)
      else
        && (r == Success <==>
              Deletable(s, fd) && !closeFault && (s.storage.Full? ==> fd in s.storage.entries))
        && s' == s.(
             kernel := Closed(s, fd).kernel,
             storage := if Deletable(s, fd) && s.storage.Full? then Full(s.storage.entries - {fd}) else s.storage,
             handles := if r == Success then s.handles[t := Shredded(t)] else s.handles)
  {
    var fd := s.handles[t].ed.fd;
    if s.handles[t].hasMachine && Deletable(s, fd) {
      WithoutFacts(s.kernel.ready, fd);
      WithoutAbsent(Without(s.kernel.ready, fd), fd);
      assert (s.kernel.interest - {fd}) - {fd} == s.kernel.interest - {fd};
      assert CloseFd(Forget(s.kernel, fd), fd) == CloseFd(s.kernel, fd);
      if s.storage.Full? && fd !in s.storage.entries {
        assert s.storage.entries - {fd} == s.storage.entries;
      }
    }
  }

  /** Creation followed by destruction restores descriptor table, interest
      set, ready list and, when the storage is absent or removes entries, the
      storage; every other handle is untouched and this one is shredded. */
  lemma CreateDestroyRoundTrip(s: State, t: nat, callback: Option<nat>, data: Data, newFd: Fd, whim: Whim)
    requires KernelOk(s.kernel) && t in s.handles
    requires Create(s, t, callback, data, newFd, whim).0 == Success
    ensures var s1 := Create(s, t, callback, data, newFd, whim).1;
      var (r, s2) := Destroy(s1, t, false);
      && r == Success
      && s2.kernel == s.kernel
      && (s.storage.InsertOnly? || s2.storage == s.storage)
      && s2.handles == s.handles[t := Shredded(t)]
      && s2 == s.(storage := s2.storage, handles := s2.handles, log := s1.log)
  {
    CreateOutcome(s, t, callback, data, newFd, whim);
    var s1 := Create(s, t, callback, data, newFd, whim).1;
    var ed := TimerDescriptor(t, newFd);
    OpenOk(s.kernel, newFd, Timer(FRESH_TIMER));
    RegisterOk(OpenFile(s.kernel, newFd, Timer(FRESH_TIMER)), ed);
    assert Condition(s1.kernel, newFd) == {};
    assert KernelOk(s1.kernel);
    DestroyOutcome(s1, t, false);
    CloseUndoes(s.kernel, ed);
    assert s1.handles[t := Shredded(t)] == s.handles[t := Shredded(t)];
    if s.storage.Full? {
      assert s.storage.entries[newFd := ed] - {newFd} == s.storage.entries;
    }
  }
}
