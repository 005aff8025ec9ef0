/** Facts about the ready list and the well-formedness that every kernel
    operation keeps. */
module ReadyList {
  import opened Epoll

  predicate Distinct(q: seq<Fd>)
  {
    forall i, j :: 0 <= i < j < |q| ==> q[i] != q[j]
  }

  function Position(q: seq<Fd>, fd: Fd): nat
  {
    if q == [] || q[0] == fd then 0 else 1 + Position(q[1..], fd)
  }

  /** Every level-triggered descriptor that is ready is queued. */
  ghost predicate LevelQueued(k: Kernel)
  {
    forall fd :: fd in k.interest && IsLevel(k, fd) && Revents(k, fd) != {} ==> fd in k.ready
  }

  ghost predicate Registered(k: Kernel)
  {
    forall fd :: fd in k.interest ==>
      fd in k.files && k.interest[fd].fd == fd && Pollable(k.files[fd])
  }

  ghost predicate KernelOk(k: Kernel)
  {
    && (forall fd :: fd in k.files ==> fd >= 0)
    && Distinct(k.ready)
    && (forall fd :: fd in k.ready ==> fd in k.interest)
    && Registered(k)
    && k.pending <= k.capacity
    && 1 <= k.capacity
    && LevelQueued(k)
  }

  // ------------------------------------------------------------ queue facts

  lemma {:induction false} BatchSize(k: Kernel, q: seq<Fd>, max: nat)
    ensures |EventsOf(k, Delivered(k, q, max))| <= max
  {
    if q != [] && max > 0 {
      if Revents(k, q[0]) == {} {
        BatchSize(k, q[1..], max);
      } else {
        BatchSize(k, q[1..], max - 1);
        var d := Delivered(k, q[1..], max - 1);
        assert ([q[0]] + d)[1..] == d;
      }
    }
  }

  lemma ConcatDistinct(a: seq<Fd>, b: seq<Fd>)
    requires Distinct(a) && Distinct(b)
    requires forall x :: x in a ==> x !in b
    ensures Distinct(a + b)
  {
    forall i, j | 0 <= i < j < |a + b| ensures (a + b)[i] != (a + b)[j] {
      if i < |a| && |a| <= j {
        assert a[i] in a && b[j - |a|] in b;
      }
    }
  }

  lemma {:induction false} WithoutFacts(q: seq<Fd>, fd: Fd)
    ensures fd !in Without(q, fd)
    ensures forall x :: x in Without(q, fd) <==> x in q && x != fd
    ensures Distinct(q) ==> Distinct(Without(q, fd))
  {
    if q != [] {
      WithoutFacts(q[1..], fd);
      assert q == [q[0]] + q[1..];
      if Distinct(q) {
        assert q[0] !in q[1..];
        ConcatDistinct([q[0]], Without(q[1..], fd));
      }
    }
  }

  lemma {:induction false} WithoutPosition(q: seq<Fd>, fd: Fd, x: Fd)
    requires x in q && x != fd
    ensures Position(Without(q, fd), x) <= Position(q, x)
  {
    if q[0] != x {
      assert q == [q[0]] + q[1..];
      WithoutPosition(q[1..], fd, x);
      if q[0] != fd {
        var w := Without(q[1..], fd);
        assert ([q[0]] + w)[1..] == w;
      }
    }
  }

  lemma {:induction false} WithoutAbsent(q: seq<Fd>, fd: Fd)
    requires fd !in q
    ensures Without(q, fd) == q
  {
    if q != [] {
      WithoutAbsent(q[1..], fd);
    }
  }

  lemma {:induction false} AppendPosition(q: seq<Fd>, r: seq<Fd>, x: Fd)
    requires x in q
    ensures x in q + r && Position(q + r, x) == Position(q, x)
  {
    if q[0] != x {
      assert q == [q[0]] + q[1..];
      AppendPosition(q[1..], r, x);
      assert (q + r)[1..] == q[1..] + r;
    }
  }

  lemma {:induction false} PositionBound(q: seq<Fd>, x: Fd)
    requires x in q
    ensures Position(q, x) < |q| && q[Position(q, x)] == x
  {
    if q[0] != x {
      assert q == [q[0]] + q[1..];
      PositionBound(q[1..], x);
    }
  }

  // -------------------------------------------------------------- scanning

  lemma {:induction false} ScanFacts(k: Kernel, q: seq<Fd>, max: nat)
    requires Distinct(q)
    ensures var d, l := Delivered(k, q, max), Leftover(k, q, max);
      && |d| <= max
      && Distinct(d) && Distinct(l)
      && (forall x :: x in d ==> x in q && x !in l && Revents(k, x) != {})
      && (forall x :: x in l ==> x in q)
      && (forall x :: x in q && Revents(k, x) != {} ==> x in d || x in l)
  {
    if q != [] && max > 0 {
      var n := if Revents(k, q[0]) == {} then max else max - 1;
      ScanFacts(k, q[1..], n);
      assert q == [q[0]] + q[1..];
      assert q[0] !in q[1..];
    }
  }

  /** A ready entry is delivered by the wait, or moves up by at least `max`. */
  lemma {:induction false} ScanProgress(k: Kernel, q: seq<Fd>, max: nat, x: Fd)
    requires x in q && Revents(k, x) != {}
    ensures x in Delivered(k, q, max) ||
      (x in Leftover(k, q, max) && Position(Leftover(k, q, max), x) + max <= Position(q, x))
  {
    if max > 0 && q[0] != x {
      assert q == [q[0]] + q[1..];
      ScanProgress(k, q[1..], if Revents(k, q[0]) == {} then max else max - 1, x);
    }
  }

  lemma {:induction false} LevelOnlyFacts(k: Kernel, q: seq<Fd>)
    ensures forall x :: x in LevelOnly(k, q) <==> x in q && IsLevel(k, x)
    ensures Distinct(q) ==> Distinct(LevelOnly(k, q))
  {
    if q != [] {
      LevelOnlyFacts(k, q[1..]);
      assert q == [q[0]] + q[1..];
    }
  }

  lemma {:induction false} EventsOfFacts(k: Kernel, q: seq<Fd>)
    requires forall i :: 0 <= i < |q| ==> q[i] in k.interest
    ensures |EventsOf(k, q)| == |q|
    ensures forall i :: 0 <= i < |q| ==>
      q[i] in k.interest && EventsOf(k, q)[i] == Event(k.interest[q[i]], Revents(k, q[i]))
  {
    if q != [] {
      EventsOfFacts(k, q[1..]);
      assert EventsOf(k, q) == [Event(k.interest[q[0]], Revents(k, q[0]))] + EventsOf(k, q[1..]);
    }
  }

  lemma WaitOk(k: Kernel, max: nat)
    requires KernelOk(k)
    ensures KernelOk(Waited(k, max))
  {
    var d, l := Delivered(k, k.ready, max), Leftover(k, k.ready, max);
    ScanFacts(k, k.ready, max);
    LevelOnlyFacts(k, d);
    ConcatDistinct(l, LevelOnly(k, d));
    var k' := Waited(k, max);
    forall fd | fd in k'.interest && IsLevel(k', fd) && Revents(k', fd) != {}
      ensures fd in k'.ready
    {
      assert IsLevel(k, fd) && Revents(k, fd) == Revents(k', fd);
    }
  }

  /** What one epoll_wait does: the batch has at most `max` events, one per
      descriptor, each the registered one and ready. */
  lemma WaitFacts(k: Kernel, max: nat)
    requires KernelOk(k)
    ensures KernelOk(Waited(k, max))
    ensures |Batch(k, max)| <= max
    ensures forall e :: e in Batch(k, max) ==>
      && e.ed.fd in k.interest && k.interest[e.ed.fd] == e.ed
      && e.revents == Revents(k, e.ed.fd) && e.revents != {}
    ensures forall i, j :: 0 <= i < j < |Batch(k, max)| ==>
      Batch(k, max)[i].ed.fd != Batch(k, max)[j].ed.fd
  {
    WaitOk(k, max);
    hide Waited, Revents, LevelQueued, Delivered, Leftover;
    var d := Delivered(k, k.ready, max);
    ScanFacts(k, k.ready, max);
    EventsOfFacts(k, d);
    forall e | e in Batch(k, max)
      ensures e.ed.fd in k.interest && k.interest[e.ed.fd] == e.ed
      ensures e.revents == Revents(k, e.ed.fd) && e.revents != {}
    {
      var i :| 0 <= i < |d| && EventsOf(k, d)[i] == e;
      assert d[i] in d && k.interest[d[i]].fd == d[i];
    }
    assert forall i :: 0 <= i < |d| ==> d[i] in d && EventsOf(k, d)[i].ed.fd == d[i];
  }

  /** The batch contains a queued, ready descriptor, or its entry moves up by
      a whole batch. */
  lemma WaitProgress(k: Kernel, max: nat, x: Fd)
    requires KernelOk(k) && x in k.ready && Revents(k, x) != {}
    ensures Event(k.interest[x], Revents(k, x)) in Batch(k, max) ||
      (x in Waited(k, max).ready && Position(Waited(k, max).ready, x) + max <= Position(k.ready, x))
  {
    var d, l := Delivered(k, k.ready, max), Leftover(k, k.ready, max);
    ScanFacts(k, k.ready, max);
    ScanProgress(k, k.ready, max, x);
    EventsOfFacts(k, d);
    if x in d {
      var i :| 0 <= i < |d| && d[i] == x;
      assert EventsOf(k, d)[i] == Event(k.interest[x], Revents(k, x));
    } else {
      AppendPosition(l, LevelOnly(k, d), x);
    }
  }

  // ---------------------------------------------- every operation keeps it

  /** Everything but LevelQueued, and LevelQueued for all but `fd`. */
  ghost predicate AlmostOk(k: Kernel, fd: Fd)
  {
    && (forall x :: x in k.files ==> x >= 0)
    && Distinct(k.ready)
    && (forall x :: x in k.ready ==> x in k.interest)
    && Registered(k)
    && k.pending <= k.capacity
    && 1 <= k.capacity
    && (forall x :: x in k.interest && x != fd && IsLevel(k, x) && Revents(k, x) != {} ==> x in k.ready)
  }

  lemma WakeOk(k: Kernel, fd: Fd)
    requires AlmostOk(k, fd)
    ensures KernelOk(Wake(k, fd))
  {
    var k' := Wake(k, fd);
    assert forall x :: Revents(k', x) == Revents(k, x) && IsLevel(k', x) == IsLevel(k, x);
    if k' != k {
      ConcatDistinct(k.ready, [fd]);
    }
  }

  lemma ForgetOk(k: Kernel, fd: Fd)
    requires KernelOk(k)
    ensures KernelOk(Forget(k, fd)) && KernelOk(CloseFd(k, fd))
  {
    WithoutFacts(k.ready, fd);
    var f, c := Forget(k, fd), CloseFd(k, fd);
    assert forall x :: x in f.interest ==> Revents(f, x) == Revents(k, x) == Revents(c, x);
    assert forall x :: x in f.interest ==> IsLevel(k, x) == IsLevel(f, x) == IsLevel(c, x);
  }

  lemma RegisterOk(k: Kernel, ed: Descriptor)
    requires KernelOk(k) && ed.fd in k.files && Pollable(k.files[ed.fd])
    ensures KernelOk(Wake(k.(interest := k.interest[ed.fd := ed]), ed.fd))
  {
    var k' := k.(interest := k.interest[ed.fd := ed]);
    assert forall x :: x != ed.fd ==> Revents(k', x) == Revents(k, x) && IsLevel(k', x) == IsLevel(k, x);
    WakeOk(k', ed.fd);
  }

  lemma WriteOk(k: Kernel)
    requires KernelOk(k) && k.pending < k.capacity
    ensures KernelOk(Wake(k.(pending := k.pending + 1), k.pipeRead))
  {
    var k' := k.(pending := k.pending + 1);
    forall x | x in k'.interest && x != k.pipeRead && IsLevel(k', x) && Revents(k', x) != {}
      ensures x in k'.ready
    {
      assert IsLevel(k, x) && Condition(k', x) <= Condition(k, x);
      assert Revents(k', x) <= Revents(k, x);
    }
    WakeOk(k', k.pipeRead);
  }

  lemma ReadOk(k: Kernel)
    requires KernelOk(k) && 0 < k.pending
    ensures KernelOk(Wake(k.(pending := k.pending - 1), k.pipeWrite))
  {
    var k' := k.(pending := k.pending - 1);
    forall x | x in k'.interest && x != k.pipeWrite && IsLevel(k', x) && Revents(k', x) != {}
      ensures x in k'.ready
    {
      assert IsLevel(k, x) && Condition(k', x) <= Condition(k, x);
      assert Revents(k', x) <= Revents(k, x);
    }
    WakeOk(k', k.pipeWrite);
  }

  lemma OpenOk(k: Kernel, fd: Fd, file: File)
    requires KernelOk(k) && fd >= 0 && fd !in k.files
    ensures KernelOk(OpenFile(k, fd, file))
  {
    var k' := OpenFile(k, fd, file);
    assert forall x :: x in k.interest ==> Revents(k', x) == Revents(k, x) && IsLevel(k', x) == IsLevel(k, x);
  }

  lemma ConditionOk(k: Kernel, fd: Fd, cond: set<Flag>)
    requires KernelOk(k)
    ensures KernelOk(SetCondition(k, fd, cond))
  {
    if fd in k.files && k.files[fd].Plain? {
      var k' := k.(files := k.files[fd := k.files[fd].(cond := cond)]);
      assert forall x :: x != fd ==> Revents(k', x) == Revents(k, x) && IsLevel(k', x) == IsLevel(k, x);
      WakeOk(k', fd);
    }
  }

  /** Setting or draining a timer leaves it with nothing to report. */
  lemma QuietTimerOk(k: Kernel, fd: Fd, t: TimerFd)
    requires KernelOk(k) && fd in k.files && k.files[fd].Timer? && t.ticks == 0
    ensures KernelOk(k.(files := k.files[fd := Timer(t)]))
  {
    var k' := k.(files := k.files[fd := Timer(t)]);
    assert forall x :: x != fd ==> Revents(k', x) == Revents(k, x) && IsLevel(k', x) == IsLevel(k, x);
    assert Revents(k', fd) == {};
  }

  lemma {:induction false} WakeAllFacts(k: Kernel, order: seq<Fd>)
    requires Distinct(k.ready) && forall x :: x in k.ready ==> x in k.interest
    ensures var k' := WakeAll(k, order);
      && k' == k.(ready := k'.ready) && k.ready <= k'.ready
      && Distinct(k'.ready) && (forall x :: x in k'.ready ==> x in k.interest)
      && (forall x :: x in order && Revents(k, x) != {} ==> x in k'.ready)
    decreases order
  {
    if order != [] {
      var k1 := Wake(k, order[0]);
      if k1 != k {
        ConcatDistinct(k.ready, [order[0]]);
      }
      assert forall x :: Revents(k1, x) == Revents(k, x);
      WakeAllFacts(k1, order[1..]);
      var k' := WakeAll(k, order);
      forall x | x in order && Revents(k, x) != {} ensures x in k'.ready {
        if x == order[0] {
          assert x in k1.ready;
        } else {
          assert x in order[1..];
        }
      }
    }
  }

  lemma AdvanceOk(k: Kernel, dt: nat, order: seq<Fd>)
    requires KernelOk(k)
    ensures KernelOk(Advance(k, dt, order))
    ensures k.ready <= Advance(k, dt, order).ready
  {
    var k1 := ElapseAll(k, dt);
    if Covers(k1, order) {
      WakeAllFacts(k1, order);
      var k' := WakeAll(k1, order);
      forall x | x in k'.interest && IsLevel(k', x) && Revents(k', x) != {}
        ensures x in k'.ready
      {
        assert Revents(k', x) == Revents(k1, x) && IsLevel(k, x);
        if !k.files[x].Timer? {
          assert Revents(k1, x) == Revents(k, x);
        }
      }
    }
  }

  lemma PassInterest(k: Kernel, dt: nat, order: seq<Fd>)
    requires KernelOk(k)
    ensures Advance(k, dt, order).interest == k.interest
  {
    WakeAllFacts(ElapseAll(k, dt), order);
  }
}
