/** Timers and time: the encoded timeout against the requested one, and the
    conservation of expirations. Every expiry of an armed timer is exactly
    one of: a callback made, an iteration owed by the replay in progress, or
    a tick still unread in the kernel. */
module Expiry {
  import opened Epoll
  import opened ReadyList
  import opened Machine
  import opened Timers
  import opened Protocol
  import opened TimerLife
  import opened BreakLoop
  import opened Quotients
  import opened Population

  // ------------------------------------------------------------- the encoding

  const NANOS_PER_MSEC := 1000000

  function Period(msec: nat): nat
  {
    Nanoseconds(Encode(msec))
  }

  /** The encoded timeout is a valid timespec from which the milliseconds can
      be read back; it falls short of them by 999000 ns for each millisecond
      beyond a whole second. */
  lemma EncodingShortfall(msec: nat)
    ensures ValidTimespec(Encode(msec))
    ensures Encode(msec).sec * 1000 + Encode(msec).nsec / 1000 == msec
    ensures msec * NANOS_PER_MSEC - Period(msec) == 999000 * (msec % 1000)
  {
  }

  /** The timer keeps the time that was asked for exactly for whole seconds. */
  lemma EncodingExact(msec: nat)
    ensures Period(msec) == msec * NANOS_PER_MSEC <==> msec % 1000 == 0
  {
    EncodingShortfall(msec);
  }

  lemma PeriodBounds(msec: nat)
    ensures msec > 0 ==> 0 < Period(msec) <= msec * NANOS_PER_MSEC
  {
    EncodingShortfall(msec);
  }

  lemma {:induction false} EncodingMonotone(a: nat, b: nat)
    requires a < b
    ensures Period(a) < Period(b)
  {
    if a / 1000 < b / 1000 {
      assert Period(b) - Period(a) >= 1000000000 - 999 * 1000;
    }
  }

  lemma EncodingInjective(a: nat, b: nat)
    requires Encode(a) == Encode(b)
    ensures a == b
  {
    EncodingShortfall(a);
    EncodingShortfall(b);
  }

  /** A negative timeout is not a valid timespec. */
  lemma EncodingNegative(msec: int)
    ensures ValidTimespec(Encode(msec)) <==> msec >= 0
  {
    if msec >= 0 {
      EncodingShortfall(msec);
    } else {
      var n := -msec;
      assert Encode(msec).sec == -(n / 1000);
      assert TruncMod(msec, 1000) == -(n % 1000);
    }
  }

  // ------------------------------------------------------ expected expirations

  /** How often a timer armed as the ledger says has expired by `now`. */
  function Expirations(l: Ledger, now: nat): nat
  {
    if l.value == 0 || now < l.at + l.value then 0
    else if l.interval == 0 then 1
    else 1 + (now - l.at - l.value) / l.interval
  }

  /** The state of a timer that has expired `e` times since it was armed,
      though perhaps not yet often enough for `now`. */
  ghost predicate Counts(l: Ledger, t: TimerFd, e: nat, now: nat)
  {
    && l.at <= now
    && if l.value == 0 then !t.armed && e == 0
       else if l.interval == 0 then
         t.interval == 0 && t.next == l.at + l.value
         && (if t.armed then e == 0 else e == 1 && t.next <= now)
       else
         t.armed && t.interval == l.interval
         && t.next == l.at + l.value + Span(e, l.interval)
         && (e > 0 ==> t.next - l.interval <= now)
  }

  ghost predicate UpToDate(l: Ledger, t: TimerFd, e: nat, now: nat)
  {
    Counts(l, t, e, now) && (t.armed ==> now < t.next)
  }

  lemma {:induction false} ElapseCounts(l: Ledger, t: TimerFd, e: nat, now: nat)
    requires t.ticks <= e && Counts(l, t, e, now)
    ensures var t' := Elapse(t, now);
      t'.ticks >= t.ticks && UpToDate(l, t', e + t'.ticks - t.ticks, now)
    decreases if t.armed && t.interval > 0 && t.next <= now then now - t.next + 1 else 0
  {
    if t.armed && t.next <= now && t.interval > 0 {
      ElapseCounts(l, TimerFd(true, t.next + t.interval, t.interval, t.ticks + 1), e + 1, now);
    }
  }

  /** Stepping through the expiries one by one arrives at the quotient. */
  lemma UpToDateExpirations(l: Ledger, t: TimerFd, e: nat, now: nat)
    requires UpToDate(l, t, e, now)
    ensures e == Expirations(l, now)
  {
    if l.value > 0 && l.interval > 0 && e > 0 {
      QuotientBound(e - 1, l.interval, now - l.at - l.value);
      QuotientAbove(e, l.interval, now - l.at - l.value);
    }
  }

  // ------------------------------------------------------------ conservation

  /** Iterations of the replay in progress that stem from the current arming
      of `t`, and those that stem from an earlier one. */
  function Owed(a: Active, t: nat, gen: nat): nat
  {
    if a.Replaying? && a.timer == t && a.gen == gen then a.remaining else 0
  }

  function Overhang(a: Active, t: nat, gen: nat): nat
  {
    if a.Replaying? && a.timer == t && a.gen != gen then a.remaining else 0
  }

  /** The account of one timer. */
  ghost predicate Conserved(a: Active, now: nat, t: nat, l: Ledger, timer: TimerFd)
  {
    && UpToDate(l, timer, l.calls + Owed(a, t, l.gen) + timer.ticks, now)
    && l.late + Overhang(a, t, l.gen) == l.budget
  }

  /** A replay belongs to an arming that has taken place. */
  ghost predicate GenOk(a: Active, ledger: map<nat, Ledger>)
  {
    a.Replaying? && a.timer in ledger ==> a.gen <= ledger[a.timer].gen
  }

  function TimerOf(k: Kernel, h: Handle): TimerFd
    requires h.ed.fd in k.files && k.files[h.ed.fd].Timer?
  {
    k.files[h.ed.fd].timer
  }

  /** A live timer has a ledger and a timer descriptor. */
  ghost predicate HasTimer(s: State, t: nat)
  {
    && t in s.handles && IsLive(s.handles[t]) && t in s.log.ledger
    && s.handles[t].ed.fd in s.kernel.files && s.kernel.files[s.handles[t].ed.fd].Timer?
  }

  ghost predicate AccountOk(s: State, t: nat)
  {
    t in s.handles && IsLive(s.handles[t]) ==>
      HasTimer(s, t) && Conserved(s.active, s.kernel.now, t, s.log.ledger[t], TimerOf(s.kernel, s.handles[t]))
  }

  ghost predicate Accounted(s: State)
  {
    GenOk(s.active, s.log.ledger) && forall t :: AccountOk(s, t)
  }

  lemma LiveHasTimer(s: State, t: nat)
    requires Sound(s) && t in s.handles && IsLive(s.handles[t])
    ensures HasTimer(s, t)
  {
    assert TimerEntry(s.kernel, t, s.handles[t]);
    hide Safe, TimersStored, ActiveOk;
  }

  /** A timer that was just set starts a new account. */
  lemma RearmedConserved(s: State, t: nat, value: nat, interval: nat)
    requires GenOk(s.active, s.log.ledger) && t in s.log.ledger
    ensures var l := Rearm(s, t, value, interval).ledger[t];
      Conserved(s.active, s.kernel.now, t, l, TimerFd(value > 0, s.kernel.now + value, interval, 0))
    ensures value == 0 ==> Conserved(s.active, s.kernel.now, t, Rearm(s, t, 0, 0).ledger[t], FRESH_TIMER)
    ensures GenOk(s.active, Rearm(s, t, value, interval).ledger)
  {
  }

  lemma SetTimeAccounted(s: State, t: nat, value: Timespec, interval: Timespec)
    requires Accounted(s) && t in s.handles && t in s.log.ledger
    ensures var s' := SetTime(s, t, value, interval).1; GenOk(s'.active, s'.log.ledger) && AccountOk(s', t)
  {
    assert AccountOk(s, t);
    if SetTime(s, t, value, interval).0 == Success {
      RearmedConserved(s, t, Nanoseconds(value), Nanoseconds(interval));
      hide Conserved, GenOk;
    }
  }

  lemma CreateAccounted(s: State, t: nat, callback: Option<nat>, data: Data, newFd: Fd, whim: Whim)
    requires KernelOk(s.kernel) && Accounted(s) && t in s.handles && !IsLive(s.handles[t]) && t in s.log.ledger
    ensures var s' := Create(s, t, callback, data, newFd, whim).1;
      GenOk(s'.active, s'.log.ledger) && AccountOk(s', t)
  {
    CreateOutcome(s, t, callback, data, newFd, whim);
    RearmedConserved(s, t, 0, 0);
    hide Create, KernelOk, Conserved, GenOk;
  }

  lemma PassAccounted(s: State, dt: nat, order: seq<Fd>, t: nat)
    requires KernelOk(s.kernel) && HasTimer(s, t) && AccountOk(s, t)
    ensures AccountOk(s.(kernel := Advance(s.kernel, dt, order)), t)
  {
    var timer := TimerOf(s.kernel, s.handles[t]);
    var l := s.log.ledger[t];
    var now := s.kernel.now + dt;
    hide KernelOk, Counts;
    ElapseCounts(l, timer, l.calls + Owed(s.active, t, l.gen) + timer.ticks, now);
    WakeAllFacts(ElapseAll(s.kernel, dt), order);
  }

  lemma {:induction false} CallAccounted(s: State, a: Action)
    requires Sound(s) && Accounted(s) && Orderly(s, a)
    ensures Accounted(Call(s, a).1)
  {
    TargetAccounted(s, a);
    forall t ensures AccountOk(Call(s, a).1, t) {
      if t !in Target(a) {
        OtherAccounted(s, a, t);
      }
    }
    hide Sound, Orderly, Call, AccountOk;
  }

  /** A timer that a call leaves as it was. */
  lemma UndisturbedAccounted(s: State, s': State, t: nat)
    requires HasTimer(s, t) && AccountOk(s, t) && s'.active == s.active && Undisturbed(s, s', t)
    ensures AccountOk(s', t)
  {
    hide Conserved;
  }

  lemma CallDisturbsNot(s: State, a: Action, t: nat)
    requires Sound(s) && Orderly(s, a) && t !in Target(a) && !a.Pass?
    requires t in s.handles && IsLive(s.handles[t])
    ensures HasTimer(s, t) && Undisturbed(s, Call(s, a).1, t)
  {
    LiveHasTimer(s, t);
    hide Safe, Populated, TimersStored, ActiveOk, Orderly, Call, Undisturbed;
    CallPopulates(s, a);
  }

  lemma UnusedAccounted(s: State, a: Action, t: nat)
    requires Sound(s) && Orderly(s, a) && t !in Target(a) && !(t in s.handles && IsLive(s.handles[t]))
    ensures AccountOk(Call(s, a).1, t)
  {
    hide Sound, Orderly, Call, Conserved, HasTimer;
    CallSparesMemory(s, a);
  }

  /** A timer that the call is not about. */
  lemma {:induction false} OtherAccounted(s: State, a: Action, t: nat)
    requires Sound(s) && Accounted(s) && Orderly(s, a) && t !in Target(a)
    ensures AccountOk(Call(s, a).1, t)
  {
    assert AccountOk(s, t) && KernelOk(s.kernel);
    hide Sound, Orderly, AccountOk, Accounted, Advance, Undisturbed, KernelOk;
    if !(t in s.handles && IsLive(s.handles[t])) {
      UnusedAccounted(s, a, t);
    } else if a.Pass? {
      LiveHasTimer(s, t);
      PassAccounted(s, a.dt, a.order, t);
    } else {
      CallFrame(s, a);
      CallDisturbsNot(s, a, t);
      UndisturbedAccounted(s, Call(s, a).1, t);
    }
  }

  /** The timer that the call is about, if it is in use afterwards. */
  ghost predicate TargetOk(s: State, a: Action)
  {
    GenOk(s.active, s.log.ledger) && forall t :: t in Target(a) ==> AccountOk(s, t)
  }

  ghost predicate Ledgers(s: State)
  {
    forall t :: t in s.handles ==> t in s.log.ledger
  }

  lemma SettingAccounted(s: State, a: Action)
    requires Accounted(s) && Ledgers(s) && (a.StartCall? || a.StopCall?)
    ensures TargetOk(Call(s, a).1, a)
  {
    assert AccountOk(s, a.timer);
    hide SetTime, AccountOk, GenOk, Encode;
    match a
    case StartCall(t, msec, isOneShot) =>
      if t in s.handles {
        SetTimeAccounted(s, t, Encode(msec), if isOneShot then Timespec(0, 0) else Encode(msec));
      }
    case StopCall(t) => if t in s.handles { SetTimeAccounted(s, t, Timespec(0, 0), Timespec(0, 0)); }
  }

  lemma CreatingAccounted(s: State, a: Action)
    requires KernelOk(s.kernel) && Accounted(s) && Ledgers(s) && a.CreateCall?
    requires a.timer in s.handles ==> !IsLive(s.handles[a.timer])
    ensures TargetOk(Call(s, a).1, a)
  {
    assert AccountOk(s, a.timer);
    if a.timer in s.handles {
      CreateAccounted(s, a.timer, a.callback, a.data, a.newFd, a.whim);
    }
    hide Create, AccountOk, GenOk, KernelOk;
  }

  lemma DestroyingAccounted(s: State, a: Action)
    requires Sound(s) && Accounted(s) && Orderly(s, a) && a.DestroyCall?
    ensures TargetOk(Call(s, a).1, a)
  {
    DestroyShreds(s, a.timer);
    hide Sound, Destroy, Conserved, GenOk;
  }

  lemma {:induction false} TargetAccounted(s: State, a: Action)
    requires Sound(s) && Accounted(s) && Orderly(s, a)
    ensures TargetOk(Call(s, a).1, a)
  {
    assert KernelOk(s.kernel) && Ledgers(s);
    if a.StartCall? || a.StopCall? {
      SettingAccounted(s, a);
    } else if a.CreateCall? {
      CreatingAccounted(s, a);
    } else if a.DestroyCall? {
      DestroyingAccounted(s, a);
    } else {
      CallFrame(s, a);
      CallSparesMemory(s, a);
    }
    hide Safe, Populated, Call, AccountOk, KernelOk;
  }

  // ------------------------------------------------------- every step keeps

  /** What reading the timer does. */
  ghost predicate Drains(s: State, s': State)
  {
    && s.active.Expired? && HasTimer(s, s.active.timer)
    && var t, fd := s.active.timer, s.active.fd;
       && s.handles[t].ed.fd == fd
       && var timer := TimerOf(s.kernel, s.handles[t]);
          s' == s.(kernel := s.kernel.(files := s.kernel.files[fd := Timer(timer.(ticks := 0))]),
                   active := Replaying(t, timer.ticks, s.log.ledger[t].gen))
  }

  lemma DrainEffect(s: State)
    requires Sound(s) && Enabled(s, Drain)
    ensures Drains(s, Apply(s, Drain))
  {
    LiveHasTimer(s, s.active.timer);
    hide Safe, Populated;
  }

  lemma TimersApart(s: State, t: nat, t': nat)
    requires Sound(s) && t in s.handles && IsLive(s.handles[t]) && t' in s.handles && IsLive(s.handles[t']) && t != t'
    ensures s.handles[t].ed.fd != s.handles[t'].ed.fd
  {
    hide Safe, TimersStored, ActiveOk;
    assert TimerEntry(s.kernel, t, s.handles[t]) && TimerEntry(s.kernel, t', s.handles[t']);
  }

  /** The ticks read become iterations owed. */
  lemma DrainConserved(a: Active, now: nat, t: nat, l: Ledger, timer: TimerFd)
    requires Conserved(a, now, t, l, timer) && a.Expired?
    ensures Conserved(Replaying(t, timer.ticks, l.gen), now, t, l, timer.(ticks := 0))
  {
    assert forall e :: UpToDate(l, timer.(ticks := 0), e, now) == UpToDate(l, timer, e, now);
  }

  lemma DrainAccounted(s: State, s': State)
    requires Sound(s) && Accounted(s) && Drains(s, s')
    ensures Accounted(s')
  {
    hide UpToDate;
    forall t ensures AccountOk(s', t) {
      assert AccountOk(s, t);
      if t == s.active.timer {
        DrainConserved(s.active, s.kernel.now, t, s.log.ledger[t], TimerOf(s.kernel, s.handles[t]));
      } else if t in s.handles && IsLive(s.handles[t]) {
        TimersApart(s, t, s.active.timer);
      }
      hide Sound;
    }
  }

  lemma CallbackConserved(a: Active, now: nat, t: nat, l: Ledger, timer: TimerFd)
    requires Conserved(a, now, t, l, timer) && a.Replaying? && a.remaining > 0 && a.timer == t
    ensures Conserved(a.(remaining := a.remaining - 1), now, t, Counted(l, a.gen), timer)
  {
    var l' := Counted(l, a.gen);
    assert forall e :: UpToDate(l', timer, e, now) == UpToDate(l, timer, e, now);
  }

  /** What one callback does. */
  ghost predicate CallsBack(s: State, s': State)
  {
    && s.active.Replaying? && s.active.remaining > 0 && HasTimer(s, s.active.timer)
    && s' == s.(active := s.active.(remaining := s.active.remaining - 1), log := s'.log)
    && var t := s.active.timer;
       s'.log.ledger == s.log.ledger[t := Counted(s.log.ledger[t], s.active.gen)]
  }

  lemma CallbackEffect(s: State)
    requires Sound(s) && Enabled(s, Callback)
    ensures CallsBack(s, Apply(s, Callback))
  {
    LiveHasTimer(s, s.active.timer);
    assert TimerEntry(s.kernel, s.active.timer, s.handles[s.active.timer]);
    hide Safe, Counted;
  }

  /** One more callback is counted, in the account of the arming it is for. */
  lemma CallbackAccounted(s: State, s': State)
    requires Accounted(s) && CallsBack(s, s')
    ensures Accounted(s')
  {
    hide UpToDate;
    forall t ensures AccountOk(s', t) {
      assert AccountOk(s, t);
      if t == s.active.timer {
        CallbackConserved(s.active, s.kernel.now, t, s.log.ledger[t], TimerOf(s.kernel, s.handles[t]));
      }
    }
  }

  /** Steps that touch neither timers nor a replay. */
  ghost predicate LeavesTimers(s: State, s': State)
  {
    && s'.handles == s.handles && s'.log.ledger == s.log.ledger
    && s'.kernel.files == s.kernel.files && s'.kernel.now == s.kernel.now
    && (s'.active == s.active ||
        ((s.active.Replaying? ==> s.active.remaining == 0) && !s'.active.Replaying?))
  }

  lemma QuietAccounted(s: State, s': State)
    requires Accounted(s) && LeavesTimers(s, s')
    ensures Accounted(s')
  {
    hide UpToDate;
    forall t ensures AccountOk(s', t) {
      assert AccountOk(s, t);
    }
  }

  lemma QuietStep(s: State, step: Step)
    requires Steady(s) && Enabled(s, step) && !step.Act? && !step.Drain? && !step.Callback?
    ensures LeavesTimers(s, Apply(s, step))
  {
    if step.Enter? {
      EnterIsLive(s);
    }
    hide Steady;
  }

  lemma StepAccounted(s: State, step: Step)
    requires Steady(s) && Accounted(s) && Enabled(s, step) && (step.Act? ==> Careful(s, step.action))
    ensures Accounted(Apply(s, step))
  {
    hide Sound, Fresh, Accounted, Orderly, Enabled;
    match step
    case Act(a) => CallAccounted(s, a);
    case Drain => DrainEffect(s); DrainAccounted(s, Apply(s, Drain));
    case Callback => CallbackEffect(s); CallbackAccounted(s, Apply(s, Callback));
    case _ => QuietStep(s, step); QuietAccounted(s, Apply(s, step));
  }

  lemma {:induction false} RunAccounted(s: State, steps: seq<Step>)
    requires Steady(s) && Accounted(s) && Follows(s, steps) && Obeys(Careful, s, steps)
    ensures Steady(ApplyAll(s, steps)) && Accounted(ApplyAll(s, steps))
  {
    if steps != [] {
      var init := steps[..|steps| - 1];
      RunAccounted(s, init);
      StepSteady(ApplyAll(s, init), steps[|steps| - 1]);
      StepAccounted(ApplyAll(s, init), steps[|steps| - 1]);
    }
  }

  /** The account of timer `t` balances: the callbacks made for the current
      arming, the iterations that the replay in progress owes it, and the ticks
      unread in the kernel add up to the expirations that the clock prescribes. */
  ghost predicate Balanced(s: State, t: nat)
  {
    && t in s.handles && t in s.log.ledger
    && s.handles[t].ed.fd in s.kernel.files && s.kernel.files[s.handles[t].ed.fd].Timer?
    && var l := s.log.ledger[t];
       && l.calls + Owed(s.active, t, l.gen) + TimerOf(s.kernel, s.handles[t]).ticks == Expirations(l, s.kernel.now)
       && l.late + Overhang(s.active, t, l.gen) == l.budget
  }

  lemma AccountedBalances(s: State, t: nat)
    requires Accounted(s) && t in s.handles && IsLive(s.handles[t])
    ensures Balanced(s, t)
  {
    assert AccountOk(s, t);
    var l, timer := s.log.ledger[t], TimerOf(s.kernel, s.handles[t]);
    UpToDateExpirations(l, timer, l.calls + Owed(s.active, t, l.gen) + timer.ticks, s.kernel.now);
  }

  /** The conservation law, over every careful run and at every moment of it:
      no expiration of any live timer is lost or duplicated. */
  lemma {:induction false} TimerConservation(s: State, steps: seq<Step>, t: nat)
    requires Steady(s) && Accounted(s) && Follows(s, steps) && Obeys(Careful, s, steps)
    requires t in ApplyAll(s, steps).handles && IsLive(ApplyAll(s, steps).handles[t])
    ensures Balanced(ApplyAll(s, steps), t)
  {
    RunAccounted(s, steps);
    AccountedBalances(ApplyAll(s, steps), t);
  }

  // ------------------------------------------------- from one arming onwards

  /** The callbacks of timer `t` among the steps. */
  function Callbacks(s: State, steps: seq<Step>, t: nat): nat
  {
    if steps == [] then 0
    else
      var init := steps[..|steps| - 1];
      var s1 := ApplyAll(s, init);
      Callbacks(s, init, t) +
      (if steps[|steps| - 1] == Callback && s1.active.Replaying? && s1.active.timer == t then 1 else 0)
  }

  /** Same arming, with `n` more callbacks in its account. */
  ghost predicate SameArming(l: Ledger, l': Ledger, n: nat)
  {
    && l' == l.(calls := l'.calls, late := l'.late)
    && l'.calls + l'.late == l.calls + l.late + n
  }

  lemma {:induction false} StepSameArming(s: State, step: Step, t: nat)
    requires Steady(s) && Enabled(s, step)
    requires step.Act? ==> Careful(s, step.action) && t !in Target(step.action)
    requires t in s.handles && IsLive(s.handles[t])
    ensures var n := if step == Callback && s.active.timer == t then 1 else 0;
      t in Apply(s, step).log.ledger && SameArming(s.log.ledger[t], Apply(s, step).log.ledger[t], n)
  {
    hide Safe, Populated, Fresh, TimersStored;
    match step
    case Act(a) => CallSparesMemory(s, a);
    case Enter => EnterIsLive(s);
    case Drain => DrainedTimer(s);
    case Callback => CallbackEffect(s);
    case _ =>
  }

  /** While nobody starts, stops or destroys the timer, the account of its
      arming grows by exactly its callbacks. */
  lemma {:induction false} CallbacksAreCounted(s: State, steps: seq<Step>, t: nat)
    requires Steady(s) && Follows(s, steps) && Obeys(Careful, s, steps) && Spared(t, steps)
    requires t in s.handles && IsLive(s.handles[t])
    ensures var s' := ApplyAll(s, steps);
      t in s'.log.ledger && SameArming(s.log.ledger[t], s'.log.ledger[t], Callbacks(s, steps, t))
  {
    if steps != [] {
      var init := steps[..|steps| - 1];
      CallbacksAreCounted(s, init, t);
      RunSteady(s, init);
      NeverDisturbed(s, init, t);
      StepSameArming(ApplyAll(s, init), steps[|steps| - 1], t);
    }
  }

  /** event_timer_start() succeeds exactly for a non-negative timeout. */
  lemma StartSucceeds(s: State, t: nat, msec: int, isOneShot: bool)
    requires Sound(s) && t in s.handles && IsLive(s.handles[t])
    ensures Start(s, t, msec, isOneShot).0 == Success <==> msec >= 0
    ensures Stop(s, t).0 == Success
  {
    LiveHasTimer(s, t);
    EncodingNegative(msec);
    hide Sound, Encode, SetTimer, Rearm;
  }

  /** A timer function called on timer `t` has led from `s` to `s1`, and
      `steps` is a run from there in which none is called on it again. */
  ghost predicate RunsFrom(s: State, s1: State, t: nat, steps: seq<Step>)
  {
    && Steady(s) && Accounted(s) && t in s.handles && IsLive(s.handles[t])
    && Follows(s1, steps) && Obeys(Careful, s1, steps) && Spared(t, steps)
  }

  /** A run that spares the timer: its account is balanced at the end, and is
      that of the same arming, with the callbacks made. */
  lemma {:induction false} SparedRun(s: State, t: nat, steps: seq<Step>)
    requires Steady(s) && Accounted(s) && t in s.handles && IsLive(s.handles[t])
    requires Follows(s, steps) && Obeys(Careful, s, steps) && Spared(t, steps)
    ensures var s' := ApplyAll(s, steps);
      && Balanced(s', t)
      && t in s.log.ledger && SameArming(s.log.ledger[t], s'.log.ledger[t], Callbacks(s, steps, t))
      && s'.log.ledger[t].at <= s'.kernel.now
  {
    hide Safe, Populated, TimersStored, ActiveOk, Fresh, Balanced, Obeys, Spared;
    CallbacksAreCounted(s, steps, t);
    NeverDisturbed(s, steps, t);
    RunAccounted(s, steps);
    assert AccountOk(ApplyAll(s, steps), t);
    AccountedBalances(ApplyAll(s, steps), t);
  }

  /** What arming leaves is again a state to run from, and after the run the
      account is that of this arming. */
  lemma {:induction false} ArmedRun(s: State, t: nat, a: Action, value: nat, interval: nat, steps: seq<Step>)
    requires RunsFrom(s, Call(s, a).1, t, steps) && Careful(s, a)
    requires Call(s, a).1.log == Rearm(s, t, value, interval) && Target(a) == {t} && !a.CreateCall? && !a.DestroyCall?
    ensures var s1 := Call(s, a).1;
      var s' := ApplyAll(s1, steps);
      && Balanced(s', t)
      && var l := s'.log.ledger[t];
         && l.at == s.kernel.now && l.value == value && l.interval == interval && l.budget == Remaining(s, t)
         && l.calls + l.late == Callbacks(s1, steps, t)
         && l.at <= s'.kernel.now
  {
    hide Steady, Accounted, Careful, Call, Obeys, Spared, ApplyAll, Rearm;
    Armed(s, t, a, value, interval);
    SparedRun(Call(s, a).1, t, steps);
  }

  lemma {:induction false} Armed(s: State, t: nat, a: Action, value: nat, interval: nat)
    requires Steady(s) && Accounted(s) && t in s.handles && IsLive(s.handles[t]) && Careful(s, a)
    requires Call(s, a).1.log == Rearm(s, t, value, interval) && Target(a) == {t} && !a.CreateCall? && !a.DestroyCall?
    ensures var s1 := Call(s, a).1;
      && Steady(s1) && Accounted(s1) && t in s1.handles && IsLive(s1.handles[t])
      && t in s1.log.ledger
      && var l := s1.log.ledger[t];
         l == Ledger(l.gen, s.kernel.now, value, interval, 0, 0, Remaining(s, t))
  {
    CallSteady(s, a);
    CallAccounted(s, a);
    hide Sound, Fresh, Accounted, Careful, Encode;
  }

  lemma {:induction false} StartRearms(s: State, t: nat, msec: nat, isOneShot: bool)
    requires Call(s, StartCall(t, msec, isOneShot)).0 == Success && Sound(s)
    ensures Call(s, StartCall(t, msec, isOneShot)).1.log ==
      Rearm(s, t, Period(msec), if isOneShot then 0 else Period(msec))
    ensures Careful(s, StartCall(t, msec, isOneShot))
  {
    hide Encode, Sound;
  }

  /** The ticks of timer `t` that nobody has read yet. */
  function Unread(s: State, t: nat): nat
  {
    if t in s.handles && s.handles[t].ed.fd in s.kernel.files && s.kernel.files[s.handles[t].ed.fd].Timer?
    then s.kernel.files[s.handles[t].ed.fd].timer.ticks
    else 0
  }

  /** `n` expirations in `elapsed` nanoseconds: the quotient by the encoded
      period, and no fewer than the quotient by the period asked for. */
  predicate Periodic(msec: nat, elapsed: nat, n: int)
    requires msec > 0
  {
    PeriodBounds(msec);
    n == elapsed / Period(msec) && n >= elapsed / (msec * NANOS_PER_MSEC)
  }

  /** No expiration of a periodic timer is lost or duplicated, at any moment
      after it was started: the callbacks made since, the iterations that the
      replay in progress still has to make and the ticks unread are the elapsed
      time divided by the encoded period, plus what a replay that the start
      interrupted had left to make. The quotient is never smaller than that by
      the period asked for. */
  lemma {:induction false} PeriodicConservation(s: State, t: nat, msec: nat, s1: State, steps: seq<Step>)
    requires t in s.handles && Start(s, t, msec, false) == (Success, s1)
    requires RunsFrom(s, s1, t, steps) && msec > 0
    ensures var s' := ApplyAll(s1, steps);
      && s'.kernel.now >= s.kernel.now
      && Periodic(msec, s'.kernel.now - s.kernel.now,
           Callbacks(s1, steps, t) + Remaining(s', t) + Unread(s', t) - Remaining(s, t))
  {
    var a := StartCall(t, msec, false);
    StartRearms(s, t, msec, false);
    ArmedRun(s, t, a, Period(msec), Period(msec), steps);
    var s' := ApplyAll(s1, steps);
    var l := s'.log.ledger[t];
    OwedOrOverhang(s', t, l.gen);
    PeriodicCount(msec, l, s'.kernel.now, s'.kernel.now - s.kernel.now, Expirations(l, s'.kernel.now));
  }

  /** Between handler calls, of a timer that was started outside its own
      replay, callbacks and unread ticks are all there is. */
  lemma {:induction false} PeriodicBetweenCalls(s: State, t: nat, msec: nat, s1: State, steps: seq<Step>)
    requires t in s.handles && Start(s, t, msec, false) == (Success, s1)
    requires RunsFrom(s, s1, t, steps) && msec > 0 && Remaining(s, t) == 0
    requires !ApplyAll(s1, steps).active.Replaying?
    ensures var s' := ApplyAll(s1, steps);
      && s'.kernel.now >= s.kernel.now
      && Periodic(msec, s'.kernel.now - s.kernel.now, Callbacks(s1, steps, t) + Unread(s', t))
  {
    PeriodicConservation(s, t, msec, s1, steps);
  }

  lemma OwedOrOverhang(s: State, t: nat, gen: nat)
    ensures Owed(s.active, t, gen) + Overhang(s.active, t, gen) == Remaining(s, t)
  {
  }

  lemma {:induction false} PeriodicCount(msec: nat, l: Ledger, now: nat, elapsed: nat, n: nat)
    requires msec > 0 && l.value == l.interval == Period(msec)
    requires now == l.at + elapsed && n == Expirations(l, now)
    ensures Periodic(msec, elapsed, n)
  {
    PeriodBounds(msec);
    PeriodicExpirations(l, now);
    QuotientAntitone(elapsed, Period(msec), msec * NANOS_PER_MSEC);
  }

  lemma {:induction false} PeriodicExpirations(l: Ledger, now: nat)
    requires l.value == l.interval > 0 && l.at <= now
    ensures Expirations(l, now) == (now - l.at) / l.interval
  {
    QuotientStep(now - l.at, l.interval);
  }

  /** One arming as one-shot yields at most one callback until the timer is
      armed again, beside those that an interrupted replay still makes. */
  lemma {:induction false} OneShotBound(s: State, t: nat, msec: nat, s1: State, steps: seq<Step>)
    requires t in s.handles && Start(s, t, msec, true) == (Success, s1)
    requires RunsFrom(s, s1, t, steps)
    ensures Callbacks(s1, steps, t) <= 1 + Remaining(s, t)
  {
    StartRearms(s, t, msec, true);
    ArmedRun(s, t, StartCall(t, msec, true), Period(msec), 0, steps);
  }

  /** After a successful stop no callback is made until the next start, but
      for the iterations that a replay in progress still has to make: none
      when the timer is stopped outside its own callbacks, n - 1 when it is
      stopped from the first callback of n. They are all made. */
  lemma {:induction false} StopBound(s: State, t: nat, s1: State, steps: seq<Step>)
    requires t in s.handles && Stop(s, t) == (Success, s1)
    requires RunsFrom(s, s1, t, steps)
    ensures Callbacks(s1, steps, t) <= Remaining(s, t)
    ensures !ApplyAll(s1, steps).active.Replaying? ==> Callbacks(s1, steps, t) == Remaining(s, t)
  {
    ArmedRun(s, t, StopCall(t), 0, 0, steps);
  }

  /** In the first callback of a replay of n expirations, n - 1 remain. */
  lemma FirstCallbackRemaining(s: State)
    requires Steady(s) && Enabled(s, Drain)
    ensures var n := s.kernel.files[s.active.fd].timer.ticks;
      var s1 := Apply(s, Drain);
      && s1.log == s.log
      && (n == 0 <==> Enabled(s1, Leave))
      && (n > 0 ==> Enabled(s1, Callback) && Remaining(Apply(s1, Callback), s.active.timer) == n - 1)
  {
    DrainedTimer(s);
  }
}
