/** The descriptor storage beside the kernel's interest set: what keeps the
    two in step, and modification as deletion followed by addition. */
module Registry {
  import opened Epoll
  import opened ReadyList
  import opened Machine
  import opened Timers
  import opened Protocol
  import opened TimerLife
  import opened BreakLoop

  /** What is expected of callers: they leave the machine's own descriptors
      alone, pass modify a descriptor for the file descriptor they name, and
      with a removing storage do not close what is registered; the user's
      storage does not refuse insertions. Calls that fail are not excluded. */
  predicate RegistryRule(s: State, a: Action)
  {
    Polite(s.em, a) &&
    match a
    case AddCall(_, whim) => !whim.refuse
    case ModifyCall(fd, ed, whim) => !whim.refuse && (ed.Some? ==> ed.value.fd == fd)
    case CloseAny(fd) => s.storage.Full? ==> fd !in s.kernel.interest
    case _ => true
  }

  /** A removing storage equals the interest set without the break entry; an
      insert-only storage may keep dead entries, but holds the current
      descriptor of everything registered. */
  ghost predicate Mirrors(em: Em, k: Kernel, st: Storage)
  {
    match st
    case NoStorage => true
    case InsertOnly(m) =>
      forall fd :: fd in k.interest && fd != em.breakRead ==> fd in m && m[fd] == k.interest[fd]
    case Full(m) => m == k.interest - {em.breakRead}
  }

  ghost predicate Mirrored(s: State)
  {
    Mirrors(s.em, s.kernel, s.storage)
  }

  predicate StorageError(r: Code)
  {
    r == ErrorStorageDuplicateEntry || r == ErrorStorageNoSuchEntry
  }

  lemma AddMirrors(s: State, ed: Option<Descriptor>, whim: Whim)
    requires Ready(s) && Mirrored(s) && !whim.refuse
    ensures Mirrored(Add(s, ed, whim).1) && !StorageError(Add(s, ed, whim).0)
  {
  }

  lemma DeleteMirrors(s: State, fd: Fd)
    requires Ready(s) && Mirrored(s) && fd != s.em.breakRead
    ensures Mirrored(Delete(s, fd).2) && !StorageError(Delete(s, fd).0)
  {
  }

  lemma ModifyMirrors(s: State, fd: Fd, ed: Option<Descriptor>, whim: Whim)
    requires Ready(s) && Mirrored(s) && !whim.refuse
    requires ed.Some? ==> ed.value.fd == fd && fd != s.em.breakRead
    ensures Mirrored(Modify(s, fd, ed, whim).2) && !StorageError(Modify(s, fd, ed, whim).0)
  {
  }

  lemma ClosedMirrors(s: State, fd: Fd)
    requires Mirrored(s) && fd != s.em.breakRead
    requires s.storage.Full? ==> fd !in s.kernel.interest
    ensures Mirrored(Closed(s, fd))
  {
  }

  lemma NewEntryMirrors(em: Em, k: Kernel, k': Kernel, st: Storage, ed: Descriptor, refuse: bool)
    requires Mirrors(em, k, st) && ed.fd !in k.interest && ed.fd != em.breakRead
    requires k'.interest == k.interest[ed.fd := ed] && Insert(st, ed.fd, ed, refuse).0 == Success
    ensures Mirrors(em, k', Insert(st, ed.fd, ed, refuse).1)
  {
  }

  /** Timer creation may meet any failure: registration is rolled back. */
  lemma {:induction false} CreateMirrors(s: State, t: nat, callback: Option<nat>, data: Data, newFd: Fd, whim: Whim)
    requires Ready(s) && Mirrored(s) && t in s.handles
    ensures Mirrored(Create(s, t, callback, data, newFd, whim).1)
    ensures !StorageError(Create(s, t, callback, data, newFd, whim).0)
  {
    CreateOutcome(s, t, callback, data, newFd, whim);
    var (r, s') := Create(s, t, callback, data, newFd, whim);
    assert newFd !in s.kernel.files ==> newFd !in s.kernel.interest && newFd != s.em.breakRead;
    if r == Success {
      NewEntryMirrors(s.em, s.kernel, s'.kernel, s.storage, TimerDescriptor(t, newFd), whim.refuse);
    }
  }

  lemma DestroyMirrors(s: State, t: nat, closeFault: bool)
    requires Ready(s) && Mirrored(s) && t in s.handles
    ensures Mirrored(Destroy(s, t, closeFault).1) && !StorageError(Destroy(s, t, closeFault).0)
  {
    var fd := s.handles[t].ed.fd;
    DeleteMirrors(s, fd);
    DeleteFrame(s, fd);
    ClosedMirrors(Delete(s, fd).2, fd);
  }

  lemma QuietCall(s: State, a: Action)
    requires KernelOk(s.kernel)
    requires a.TerminateCall? || a.StartCall? || a.StopCall? || a.OpenPlain? || a.Becomes? || a.Pass?
    ensures var (r, s') := Call(s, a);
      s'.kernel.interest == s.kernel.interest && s'.storage == s.storage && s'.em == s.em && !StorageError(r)
  {
    hide KernelOk, Encode, Revents;
    if a.Pass? {
      PassInterest(s.kernel, a.dt, a.order);
      hide Advance;
    }
  }

  lemma UserCallMirrors(s: State, a: Action)
    requires Ready(s) && Mirrored(s) && RegistryRule(s, a)
    requires a.AddCall? || a.DeleteCall? || a.ModifyCall? || a.CloseAny?
    ensures Mirrored(Call(s, a).1) && !StorageError(Call(s, a).0)
  {
    hide Ready, Mirrored, Add, Delete, Modify, CloseFd;
    match a
    case AddCall(ed, whim) => AddMirrors(s, ed, whim);
    case DeleteCall(fd) => DeleteMirrors(s, fd);
    case ModifyCall(fd, ed, whim) => ModifyMirrors(s, fd, ed, whim);
    case CloseAny(fd) => ClosedMirrors(s, fd);
  }

  lemma CallMirrors(s: State, a: Action)
    requires Ready(s) && Mirrored(s) && RegistryRule(s, a)
    ensures Mirrored(Call(s, a).1) && !StorageError(Call(s, a).0)
  {
    hide KernelOk, BreakOk, HandlesOk, Mirrors, StorageError, Create, Destroy;
    if a.CreateCall? {
      StorageErrors();
      if a.timer in s.handles { CreateMirrors(s, a.timer, a.callback, a.data, a.newFd, a.whim); }
    } else if a.DestroyCall? {
      StorageErrors();
      if a.timer in s.handles { DestroyMirrors(s, a.timer, a.closeFault); }
    } else if a.AddCall? || a.DeleteCall? || a.ModifyCall? || a.CloseAny? {
      UserCallMirrors(s, a);
      hide Call;
    } else {
      QuietCall(s, a);
      SameMirrors(s, Call(s, a).1);
      hide Call;
    }
  }

  lemma StorageErrors()
    ensures !StorageError(ErrorTimerNull)
  {
  }

  lemma SameMirrors(s: State, s': State)
    requires Mirrored(s) && s'.kernel.interest == s.kernel.interest && s'.storage == s.storage && s'.em == s.em
    ensures Mirrored(s')
  {
  }

  lemma StepMirrors(s: State, step: Step)
    requires Ready(s) && Mirrored(s) && (step.Act? ==> RegistryRule(s, step.action))
    ensures Mirrored(Apply(s, step))
  {
    match step
    case Act(a) => CallMirrors(s, a); CallFrame(s, a);
    case _ =>
  }

  /** Storage and interest set stay coupled over every run, in every storage
      mode, whichever of the calls fail; and the storage never reports a
      duplicate or a missing entry. */
  lemma {:induction false} StorageMirrorsKernel(s: State, steps: seq<Step>)
    requires Safe(s) && Mirrored(s) && Follows(s, steps) && Obeys(RegistryRule, s, steps)
    ensures Mirrored(ApplyAll(s, steps))
    ensures forall a :: RegistryRule(ApplyAll(s, steps), a) ==> !StorageError(Call(ApplyAll(s, steps), a).0)
  {
    RuleIsPolite(RegistryRule, s, steps);
    RunSafe(s, steps);
    if steps != [] {
      var init := steps[..|steps| - 1];
      StorageMirrorsKernel(s, init);
      PolitePrefix(s.em, steps);
      RunSafe(s, init);
      StepMirrors(ApplyAll(s, init), steps[|steps| - 1]);
    }
    var s' := ApplyAll(s, steps);
    forall a | RegistryRule(s', a) ensures !StorageError(Call(s', a).0) {
      CallMirrors(s', a);
    }
  }

  // --------------------------------------------- modify as delete, then add

  /** Equal but for the place of `fd` in the ready list, and but for an entry
      of `fd` there that is no longer ready: which descriptors are queued and
      ready is the same, and all others keep their order. */
  ghost predicate SameButPlaceOf(fd: Fd, s: State, s': State)
  {
    && s' == s.(kernel := s.kernel.(ready := s'.kernel.ready))
    && Without(s'.kernel.ready, fd) == Without(s.kernel.ready, fd)
    && forall x :: Revents(s.kernel, x) != {} ==> (x in s.kernel.ready <==> x in s'.kernel.ready)
  }

  const WILLING := Whim(false, false)

  /** Deletion followed, when it succeeds, by addition. */
  function DeleteThenAdd(s: State, fd: Fd, ed: Descriptor): (Code, Option<Descriptor>, State)
  {
    var (r, prev, s1) := Delete(s, fd);
    if r != Success then (r, prev, s1)
    else var (r2, s2) := Add(s1, Some(ed), WILLING); (r2, prev, s2)
  }

  /** For a descriptor that is not registered both fail alike and change
      nothing. */
  lemma UnregisteredAlike(s: State, fd: Fd, ed: Descriptor, whim: Whim)
    requires Ready(s) && ed.fd == fd && fd !in s.kernel.interest
    ensures Modify(s, fd, Some(ed), whim) == DeleteThenAdd(s, fd, ed)
    ensures Modify(s, fd, Some(ed), whim) ==
      (if fd in s.kernel.files then ErrorEventCtl else ErrorBadFd, None, s)
  {
  }

  /** The kernel after a modification, and after deletion and addition. */
  function Replaced(k: Kernel, ed: Descriptor): Kernel
  {
    Wake(k.(interest := k.interest[ed.fd := ed]), ed.fd)
  }

  function Readded(k: Kernel, ed: Descriptor): Kernel
  {
    Replaced(Forget(k, ed.fd), ed)
  }

  lemma ModifyResult(s: State, ed: Descriptor)
    requires Ready(s) && ed.fd in s.kernel.interest
    ensures var (r, prev, st) := Replace(s.storage, ed.fd, ed, false);
      Modify(s, ed.fd, Some(ed), WILLING) == (r, prev, s.(kernel := Replaced(s.kernel, ed), storage := st))
  {
  }

  lemma DeleteThenAddResult(s: State, ed: Descriptor)
    requires Ready(s) && ed.fd in s.kernel.interest
    ensures var (r, prev, st) := Replace(s.storage, ed.fd, ed, false);
      var (r', prev', s') := DeleteThenAdd(s, ed.fd, ed);
      if s.storage.Full? && ed.fd !in s.storage.entries then r' != Success
      else (r', prev', s') == (r, prev, s.(kernel := Readded(s.kernel, ed), storage := st))
  {
    var k := Forget(s.kernel, ed.fd);
    assert Pollable(k.files[ed.fd]) && ed.fd !in k.interest;
    assert CtlAdd(k, s.em.queueFd, Some(ed), false) == Some(Readded(s.kernel, ed));
  }

  /** For a registered one, modify does in one kernel call what deletion and
      addition do in two: same result, same descriptor handed back, same
      interest set and storage, same ready list but for the descriptor's own
      place in it. With a removing storage this needs the storage to know the
      descriptor, and fails in every other case: modify then reports the missing
      entry after the kernel has been changed. */
  lemma {:induction false} ModifyIsDeleteThenAdd(s: State, fd: Fd, ed: Descriptor)
    requires Ready(s) && ed.fd == fd && fd in s.kernel.interest && fd != s.em.breakRead
    ensures var (r, prev, s1) := Modify(s, fd, Some(ed), WILLING);
      var (r', prev', s2) := DeleteThenAdd(s, fd, ed);
      (s.storage.Full? ==> fd in s.storage.entries) <==>
        (r == r' == Success && prev == prev' && SameButPlaceOf(fd, s1, s2))
    ensures s.storage.Full? && fd !in s.storage.entries ==>
      var (r, prev, s1) := Modify(s, fd, Some(ed), WILLING);
      r == ErrorStorageNoSuchEntry && prev == None
      && s1.kernel.interest[fd] == ed && s1.storage == s.storage
  {
    ModifyQueue(s.kernel, ed);
    ModifyResult(s, ed);
    DeleteThenAddResult(s, ed);
    hide Modify, DeleteThenAdd, Replaced, Readded, Without;
  }

  lemma {:induction false} WithoutSnoc(q: seq<Fd>, fd: Fd)
    ensures Without(q + [fd], fd) == Without(q, fd)
  {
    if q == [] {
      assert [fd][1..] == [];
    } else {
      assert (q + [fd])[1..] == q[1..] + [fd];
      WithoutSnoc(q[1..], fd);
    }
  }

  /** The two ready lists, with and without the descriptor in question. A
      modified descriptor that is queued but no longer ready stays queued, where
      deletion removes it. */
  lemma {:induction false} ModifyQueue(k: Kernel, ed: Descriptor)
    ensures var k1, k2 := Replaced(k, ed), Readded(k, ed);
      && k2 == k1.(ready := k2.ready)
      && Without(k1.ready, ed.fd) == Without(k2.ready, ed.fd) == Without(k.ready, ed.fd)
      && (ed.fd in k1.ready <==> ed.fd in k.ready || Revents(k1, ed.fd) != {})
      && (ed.fd in k2.ready <==> Revents(k1, ed.fd) != {})
      && forall x :: x != ed.fd ==> (x in k1.ready <==> x in k2.ready)
  {
    var fd := ed.fd;
    assert (k.interest - {fd})[fd := ed] == k.interest[fd := ed];
    WithoutFacts(k.ready, fd);
    WithoutAbsent(Without(k.ready, fd), fd);
    WithoutSnoc(k.ready, fd);
    WithoutSnoc(Without(k.ready, fd), fd);
  }

  lemma {:induction false} DeliveredSkips(k: Kernel, q: seq<Fd>, fd: Fd, max: nat)
    requires Revents(k, fd) == {}
    ensures Delivered(k, q, max) == Delivered(k, Without(q, fd), max)
  {
    if q != [] && max > 0 {
      DeliveredSkips(k, q[1..], fd, if Revents(k, q[0]) == {} then max else max - 1);
      if q[0] != fd {
        var w := Without(q[1..], fd);
        assert ([q[0]] + w)[1..] == w;
      }
    }
  }

  /** The entry that modification leaves queued is never delivered: whenever
      the descriptor is not ready, both ways have the next wait deliver the same
      batch. */
  lemma {:induction false} SameBatchUnlessReady(k: Kernel, ed: Descriptor, max: nat)
    requires Revents(Replaced(k, ed), ed.fd) == {}
    ensures Batch(Replaced(k, ed), max) == Batch(Readded(k, ed), max)
  {
    var k1, k2 := Replaced(k, ed), Readded(k, ed);
    ModifyQueue(k, ed);
    DeliveredSkips(k1, k1.ready, ed.fd, max);
    DeliveredSkips(k1, k2.ready, ed.fd, max);
    SameDelivered(k1, k2, k2.ready, max);
    SameEvents(k1, k2, Delivered(k1, k1.ready, max));
  }

  lemma {:induction false} SameDelivered(k1: Kernel, k2: Kernel, q: seq<Fd>, max: nat)
    requires k2 == k1.(ready := k2.ready)
    ensures Delivered(k1, q, max) == Delivered(k2, q, max)
  {
    if q != [] && max > 0 {
      SameDelivered(k1, k2, q[1..], if Revents(k1, q[0]) == {} then max else max - 1);
    }
  }

  lemma {:induction false} SameEvents(k1: Kernel, k2: Kernel, q: seq<Fd>)
    requires k2 == k1.(ready := k2.ready)
    ensures EventsOf(k1, q) == EventsOf(k2, q)
  {
    if q != [] {
      SameEvents(k1, k2, q[1..]);
    }
  }

  /** The state in which modification differs is reached by one addition that
      the storage refuses: from any state in which storage and interest set are
      in step, the descriptor is then registered but unknown to the storage,
      and modification changes the kernel and fails, where deletion would have
      unregistered it. */
  lemma {:induction false} RefusedAddThenModify(s: State, ed: Descriptor, ed': Descriptor)
    requires Ready(s) && Mirrored(s) && s.storage.Full? && ed'.fd == ed.fd
    requires ed.fd in s.kernel.files && Pollable(s.kernel.files[ed.fd]) && ed.fd !in s.kernel.interest
    ensures var (r, s1) := Add(s, Some(ed), Whim(false, true));
      var (r', _, s2) := Modify(s1, ed.fd, Some(ed'), WILLING);
      && r == ErrorStorageRefused && IsRegistered(s1.kernel, ed) && ed.fd !in s1.storage.entries
      && r' == ErrorStorageNoSuchEntry && IsRegistered(s2.kernel, ed') && s2.storage == s1.storage
      && Delete(s1, ed.fd).0 == ErrorStorageNoSuchEntry && ed.fd !in Delete(s1, ed.fd).2.kernel.interest
  {
    var k := s.kernel.(interest := s.kernel.interest[ed.fd := ed]);
    assert CtlAdd(s.kernel, s.em.queueFd, Some(ed), false) == Some(Wake(k, ed.fd));
  }

  /** The descriptor handed back is the one that was registered, when the
      storage removes entries and mirrors the kernel; otherwise the caller's
      variable is left as it was, where the header promises NULL. */
  lemma OldDescriptorReturned(s: State, fd: Fd)
    requires Ready(s) && Mirrored(s) && fd in s.kernel.interest && fd != s.em.breakRead
    ensures Delete(s, fd).0 == Success
    ensures Delete(s, fd).1 == if s.storage.Full? then Some(s.kernel.interest[fd]) else None
  {
  }

  /** When the kernel is short of resources, modify changes nothing, where
      deletion followed by a denied addition leaves nothing registered. */
  lemma DeniedModifyIsSafer(s: State, fd: Fd, ed: Descriptor, refuse: bool)
    requires Ready(s) && Mirrored(s) && ed.fd == fd && fd in s.kernel.interest && fd != s.em.breakRead
    ensures Modify(s, fd, Some(ed), Whim(true, refuse)) == (ErrorEventCtl, None, s)
    ensures var (r, s2) := Add(Delete(s, fd).2, Some(ed), Whim(true, refuse));
      r == ErrorEventCtl && fd !in s2.kernel.interest
  {
  }
}
