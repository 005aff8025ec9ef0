/** What handlers and other threads do around a run, as a script, and the steps
    that the machine takes for it: every call of the script that is reached is
    made, in its place, and nothing else is. */
module Script {
  import opened Epoll
  import opened Machine
  import opened Timers
  import opened Protocol
  import opened BreakLoop

  /** What happens around one event of a batch: the calls that other threads
      make before it is handled, and those that its handler makes; for a timer,
      the i-th callback makes those of `bodies[i]`. */
  datatype Reaction = Reaction(meanwhile: seq<Action>, bodies: seq<seq<Action>>)

  /** What happens around one batch: before epoll_wait returns, whether it is
      interrupted, and around each of its events. */
  datatype Turn = Turn(before: seq<Action>, waitFails: bool, reactions: seq<Reaction>)

  function Body(bodies: seq<seq<Action>>, i: nat): seq<Action>
  {
    if i < |bodies| then bodies[i] else []
  }

  function ReactionTo(reactions: seq<Reaction>, i: nat): Reaction
  {
    if i < |reactions| then reactions[i] else Reaction([], [])
  }

  predicate PoliteActions(em: Em, actions: seq<Action>)
  {
    forall a :: a in actions ==> Polite(em, a)
  }

  predicate PoliteBodies(em: Em, bodies: seq<seq<Action>>)
  {
    forall b :: b in bodies ==> PoliteActions(em, b)
  }

  predicate PoliteReaction(em: Em, r: Reaction)
  {
    PoliteActions(em, r.meanwhile) && PoliteBodies(em, r.bodies)
  }

  predicate PoliteReactions(em: Em, reactions: seq<Reaction>)
  {
    forall r :: r in reactions ==> PoliteReaction(em, r)
  }

  predicate PoliteTurn(em: Em, turn: Turn)
  {
    PoliteActions(em, turn.before) && PoliteReactions(em, turn.reactions)
  }

  predicate PoliteTurns(em: Em, turns: seq<Turn>)
  {
    forall turn :: turn in turns ==> PoliteTurn(em, turn)
  }

  // --------------------------------------------------------------- the steps

  /** The calls, one after the other. */
  function Performed(actions: seq<Action>): seq<Step>
  {
    seq(|actions|, i requires 0 <= i < |actions| => Act(actions[i]))
  }

  predicate HasCallback(s: State, t: nat)
  {
    t in s.handles && s.handles[t].callback.Some?
  }

  /** One callback of timer `t`, and what it does. */
  function CallbackSteps(s: State, t: nat, body: seq<Action>): seq<Step>
  {
    [Callback] + if HasCallback(s, t) then Performed(body) else []
  }

  /** `n` callbacks, the first of which is the i-th of the replay. */
  function ReplaySteps(s: State, t: nat, bodies: seq<seq<Action>>, i: nat, n: nat): seq<Step>
    decreases n
  {
    if n == 0 then []
    else
      var here := CallbackSteps(s, t, Body(bodies, i));
      here + ReplaySteps(ApplyAll(s, here), t, bodies, i + 1, n - 1)
  }

  /** A handler, from its entry in state `s` to its return. */
  function HandlerSteps(s: State, bodies: seq<seq<Action>>): seq<Step>
  {
    match s.active
    case InUser(_) => Performed(Body(bodies, 0)) + [Leave]
    case Expired(t, _) =>
      var s1 := Apply(s, Drain);
      [Drain] + ReplaySteps(s1, t, bodies, 0, Remaining(s1, t)) + [Leave]
    case _ => []
  }

  /** The next event of the batch: the break byte is read, or the handler is
      called. */
  function DispatchSteps(s: State, bodies: seq<seq<Action>>): seq<Step>
  {
    if AtBreak(s) then [if ReadByte(s.kernel, s.em.breakRead).Some? then BreakRead else ReadError]
    else [Enter] + HandlerSteps(Apply(s, Enter), bodies)
  }

  /** The same, after what other threads do before. */
  function EventSteps(s: State, r: Reaction): seq<Step>
  {
    Performed(r.meanwhile) + DispatchSteps(ApplyAll(s, Performed(r.meanwhile)), r.bodies)
  }

  /** The last `n` events of a batch, the first of which is the i-th. */
  function BatchSteps(s: State, reactions: seq<Reaction>, i: nat, n: nat): seq<Step>
    decreases n
  {
    if n == 0 then []
    else
      var here := EventSteps(s, ReactionTo(reactions, i));
      here + if ReadError in here then [] else BatchSteps(ApplyAll(s, here), reactions, i + 1, n - 1)
  }

  /** One batch of a run. */
  function TurnSteps(s: State, turn: Turn): seq<Step>
  {
    var before := Performed(turn.before);
    if turn.waitFails then before
    else
      var s1 := Apply(ApplyAll(s, before), Fetch);
      before + [Fetch] + BatchSteps(s1, turn.reactions, 0, |s1.todo|)
  }

  /** A run, until it ends or `turns` do not say more. */
  function RunSteps(s: State, turns: seq<Turn>): seq<Step>
    decreases |turns|
  {
    if turns == [] then []
    else
      var here := TurnSteps(s, turns[0]);
      here +
      if turns[0].waitFails || ReadError in here then []
      else if BreakRead in here then [Return]
      else RunSteps(ApplyAll(s, here), turns[1..])
  }

  /** One more iteration of each loop. */
  lemma ReplayUnfolds(s: State, t: nat, bodies: seq<seq<Action>>, i: nat, n: nat, done: seq<Step>)
    requires n > 0
    ensures var here := CallbackSteps(s, t, Body(bodies, i));
      done + ReplaySteps(s, t, bodies, i, n)
        == (done + here) + ReplaySteps(ApplyAll(s, here), t, bodies, i + 1, n - 1)
  {
    hide CallbackSteps, ApplyAll;
  }

  lemma BatchUnfolds(s: State, reactions: seq<Reaction>, i: nat, n: nat, done: seq<Step>)
    requires n > 0
    ensures var here := EventSteps(s, ReactionTo(reactions, i));
      done + BatchSteps(s, reactions, i, n)
        == (done + here) + if ReadError in here then [] else BatchSteps(ApplyAll(s, here), reactions, i + 1, n - 1)
  {
    hide EventSteps, ApplyAll;
  }

  lemma RunUnfolds(s: State, turns: seq<Turn>, k: nat, done: seq<Step>)
    requires k < |turns|
    ensures var here := TurnSteps(s, turns[k]);
      done + RunSteps(s, turns[k..])
        == (done + here) +
           if turns[k].waitFails || ReadError in here then []
           else if BreakRead in here then [Return]
           else RunSteps(ApplyAll(s, here), turns[k + 1..])
  {
    hide TurnSteps, ApplyAll;
    assert turns[k..][1..] == turns[k + 1..];
  }

  lemma ReplayEnds(bodies: seq<seq<Action>>, t: nat)
    ensures forall s, i :: ReplaySteps(s, t, bodies, i, 0) == []
  {
  }

  lemma BatchEnds(reactions: seq<Reaction>, i: nat)
    ensures forall s :: BatchSteps(s, reactions, i, 0) == []
  {
  }

  lemma RunEnds()
    ensures forall s :: RunSteps(s, []) == []
  {
  }

  /** The definitions, at the states that the run goes through. */
  lemma HandlerIs(s: State, bodies: seq<seq<Action>>)
    ensures s.active.InUser? ==> HandlerSteps(s, bodies) == Performed(Body(bodies, 0)) + [Leave]
    ensures s.active.Expired? ==>
      var s1 := Apply(s, Drain);
      HandlerSteps(s, bodies)
        == [Drain] + ReplaySteps(s1, s.active.timer, bodies, 0, Remaining(s1, s.active.timer)) + [Leave]
    ensures !s.active.InUser? && !s.active.Expired? ==> HandlerSteps(s, bodies) == []
  {
    hide Apply, ReplaySteps;
  }

  lemma EventIs(s: State, r: Reaction, s1: State)
    requires s1 == ApplyAll(s, Performed(r.meanwhile))
    ensures EventSteps(s, r) == Performed(r.meanwhile) + DispatchSteps(s1, r.bodies)
  {
    hide DispatchSteps, ApplyAll, Performed;
  }

  lemma TurnIs(s: State, turn: Turn, s1: State)
    requires s1 == ApplyAll(s, Performed(turn.before))
    ensures turn.waitFails ==> TurnSteps(s, turn) == Performed(turn.before)
    ensures !turn.waitFails ==>
      var s2 := Apply(s1, Fetch);
      TurnSteps(s, turn) == Performed(turn.before) + [Fetch] + BatchSteps(s2, turn.reactions, 0, |s2.todo|)
  {
    hide BatchSteps, Apply, ApplyAll, Performed;
  }

  lemma {:induction false} PerformedIsActs(actions: seq<Action>)
    ensures multiset(Performed(actions))[Callback] == 0
  {
    assert Callback !in Performed(actions);
  }

  lemma {:induction false} CallbackCount(s: State, t: nat, body: seq<Action>)
    ensures multiset(CallbackSteps(s, t, body))[Callback] == 1
  {
    PerformedIsActs(body);
    hide Performed, HasCallback;
  }

  /** A replay of `n` expirations makes `n` callbacks. */
  lemma {:induction false} ReplayCount(s: State, t: nat, bodies: seq<seq<Action>>, i: nat, n: nat)
    ensures multiset(ReplaySteps(s, t, bodies, i, n))[Callback] == n
    decreases n
  {
    hide ApplyAll, CallbackSteps;
    if n > 0 {
      var here := CallbackSteps(s, t, Body(bodies, i));
      CallbackCount(s, t, Body(bodies, i));
      ReplayCount(ApplyAll(s, here), t, bodies, i + 1, n - 1);
    }
  }

  // ------------------------------------------------ which calls are made

  /** The calls among the steps. */
  function ActionsOf(steps: seq<Step>): seq<Action>
  {
    if steps == [] then []
    else ActionsOf(steps[..|steps| - 1]) + match steps[|steps| - 1] case Act(a) => [a] case _ => []
  }

  lemma {:induction false} ActionsConcat(a: seq<Step>, b: seq<Step>)
    ensures ActionsOf(a + b) == ActionsOf(a) + ActionsOf(b)
  {
    if b == [] {
      assert a + b == a;
    } else {
      ActionsConcat(a, b[..|b| - 1]);
      assert (a + b)[..|a + b| - 1] == a + b[..|b| - 1];
    }
  }

  lemma NoActions()
    ensures ActionsOf([]) == []
  {
  }

  lemma {:induction false} ActionsPerformed(actions: seq<Action>)
    ensures ActionsOf(Performed(actions)) == actions
  {
    if actions != [] {
      var n := |actions| - 1;
      ActionsPerformed(actions[..n]);
      assert Performed(actions)[..n] == Performed(actions[..n]);
    }
  }

  lemma PerformedNone()
    ensures Performed([]) == []
  {
  }

  lemma PerformedSnoc(actions: seq<Action>, i: nat)
    requires i < |actions|
    ensures Performed(actions[..i + 1]) == Performed(actions[..i]) + [Act(actions[i])]
  {
  }

  /** `n` bodies, from the i-th on. */
  function Bodies(bodies: seq<seq<Action>>, i: nat, n: nat): seq<Action>
    decreases n
  {
    if n == 0 then [] else Body(bodies, i) + Bodies(bodies, i + 1, n - 1)
  }

  /** The handle has its callback at each of the `n` calls. */
  predicate KeepsCallback(s: State, t: nat, bodies: seq<seq<Action>>, i: nat, n: nat)
    decreases n
  {
    n == 0 ||
    (HasCallback(s, t) && KeepsCallback(ApplyAll(s, CallbackSteps(s, t, Body(bodies, i))), t, bodies, i + 1, n - 1))
  }

  lemma {:induction false} CallbackActions(s: State, t: nat, body: seq<Action>)
    ensures ActionsOf(CallbackSteps(s, t, body)) == if HasCallback(s, t) then body else []
  {
    ActionsConcat([Callback], Performed(body));
    ActionsPerformed(body);
    assert [Callback][..0] == [];
    assert [Callback] + [] == [Callback];
  }

  /** The callbacks of a replay make their calls one after the other, as long as
      the handle has its callback. */
  lemma {:induction false} ReplayActions(s: State, t: nat, bodies: seq<seq<Action>>, i: nat, n: nat)
    requires KeepsCallback(s, t, bodies, i, n)
    ensures ActionsOf(ReplaySteps(s, t, bodies, i, n)) == Bodies(bodies, i, n)
    decreases n
  {
    hide CallbackSteps, ApplyAll, ActionsOf;
    if n == 0 {
      NoActions();
    } else {
      var here := CallbackSteps(s, t, Body(bodies, i));
      var rest := ReplaySteps(ApplyAll(s, here), t, bodies, i + 1, n - 1);
      CallbackActions(s, t, Body(bodies, i));
      ReplayActions(ApplyAll(s, here), t, bodies, i + 1, n - 1);
      ActionsConcat(here, rest);
    }
  }

  lemma StepFaults(s: State, step: Step)
    ensures Apply(s, step).log.faults >= s.log.faults
  {
    match step
    case Act(a) => CallFaults(s, a);
    case _ =>
  }

  lemma {:induction false} CallFaults(s: State, a: Action)
    ensures Call(s, a).1.log.faults >= s.log.faults
  {
    hide Encode;
    match a
    case AddCall(ed, whim) => AddFrame(s, ed, whim);
    case DeleteCall(fd) => DeleteFrame(s, fd);
    case ModifyCall(fd, ed, whim) => ModifyFrame(s, fd, ed, whim);
    case CreateCall(t, callback, data, newFd, whim) =>
      if t in s.handles && callback.Some? && newFd >= 0 && newFd !in s.kernel.files {
        var s1 := Filled(s, t, Handle(TimerDescriptor(t, newFd), true, data, callback), newFd);
        AddFrame(s1, Some(TimerDescriptor(t, newFd)), whim);
        hide Add;
      }
    case DestroyCall(t, _) => if t in s.handles { DeleteFrame(s, s.handles[t].ed.fd); }
    case _ =>
  }

  lemma {:induction false} RunFaults(s: State, steps: seq<Step>)
    ensures ApplyAll(s, steps).log.faults >= s.log.faults
  {
    if steps != [] {
      RunFaults(s, steps[..|steps| - 1]);
      StepFaults(ApplyAll(s, steps[..|steps| - 1]), steps[|steps| - 1]);
    }
  }

  /** A replay that goes through no NULL pointer has its callback each time. */
  lemma {:induction false} FaultFreeKeepsCallback(s: State, t: nat, bodies: seq<seq<Action>>, i: nat, n: nat)
    requires n > 0 ==> s.active.Replaying? && s.active.timer == t && s.active.remaining == n
    requires ApplyAll(s, ReplaySteps(s, t, bodies, i, n)).log.faults == s.log.faults
    ensures KeepsCallback(s, t, bodies, i, n)
    decreases n
  {
    if n > 0 {
      var here := CallbackSteps(s, t, Body(bodies, i));
      var s1 := ApplyAll(s, here);
      var rest := ReplaySteps(s1, t, bodies, i + 1, n - 1);
      Concat(s, here, rest);
      RunFaults(s, here);
      RunFaults(s1, rest);
      CallbackState(s, t, Body(bodies, i), n);
      hide CallbackSteps, ApplyAll;
      FaultFreeKeepsCallback(s1, t, bodies, i + 1, n - 1);
    }
  }

  lemma {:induction false} CallbackState(s: State, t: nat, body: seq<Action>, n: nat)
    requires n > 0 && s.active.Replaying? && s.active.timer == t && s.active.remaining == n
    ensures var s1 := ApplyAll(s, CallbackSteps(s, t, body));
      && s1.active == s.active.(remaining := n - 1)
      && (s1.log.faults == s.log.faults ==> HasCallback(s, t))
  {
    var more := if HasCallback(s, t) then Performed(body) else [];
    var s1 := Apply(s, Callback);
    assert [Callback][..0] == [];
    assert ApplyAll(s, [Callback]) == s1;
    Concat(s, [Callback], more);
    ActsKeepActive(s1, more);
    RunFaults(s1, more);
    hide Call, ApplyAll;
  }

  lemma {:induction false} ActsKeepActive(s: State, steps: seq<Step>)
    requires forall x :: x in steps ==> x.Act?
    ensures ApplyAll(s, steps).active == s.active
  {
    if steps != [] {
      var init, last := steps[..|steps| - 1], steps[|steps| - 1];
      assert steps == init + [last];
      ActsKeepActive(s, init);
      CallFrame(ApplyAll(s, init), last.action);
      hide Call;
    }
  }

  /** The calls that one dispatch makes: those of the user's handler; those of
      a timer's callback, once for every expiration; none for a break event. */
  lemma {:induction false} DispatchActions(s: State, bodies: seq<seq<Action>>)
    ensures var s1 := Apply(s, Enter);
      var s2 := Apply(s1, Drain);
      && (AtBreak(s) ==> ActionsOf(DispatchSteps(s, bodies)) == [])
      && (!AtBreak(s) && s1.active.InUser? ==> ActionsOf(DispatchSteps(s, bodies)) == Body(bodies, 0))
      && (!AtBreak(s) && s1.active.Expired? ==>
            var t := s1.active.timer;
            KeepsCallback(s2, t, bodies, 0, Remaining(s2, t)) ==>
              ActionsOf(DispatchSteps(s, bodies)) == Bodies(bodies, 0, Remaining(s2, t)))
  {
    var s1 := Apply(s, Enter);
    var steps := DispatchSteps(s, bodies);
    hide Apply, AtBreak, ReadByte, KeepsCallback, Performed, ReplaySteps;
    if AtBreak(s) {
      assert steps[..0] == [];
    } else {
      ActionsConcat([Enter], HandlerSteps(s1, bodies));
      assert [Enter][..0] == [] && [Leave][..0] == [] && [Drain][..0] == [];
      if s1.active.InUser? {
        ActionsConcat(Performed(Body(bodies, 0)), [Leave]);
        ActionsPerformed(Body(bodies, 0));
      } else if s1.active.Expired? {
        var t, s2 := s1.active.timer, Apply(s1, Drain);
        var n := Remaining(s2, t);
        var replay := ReplaySteps(s2, t, bodies, 0, n);
        ActionsConcat([Drain] + replay, [Leave]);
        ActionsConcat([Drain], replay);
        if KeepsCallback(s2, t, bodies, 0, n) {
          ReplayActions(s2, t, bodies, 0, n);
        }
      }
    }
  }

  /** With a batch of events whose handlers are all the user's, in the order of
      the batch: what other threads do before an event, then what its handler
      does. */
  function UserActions(reactions: seq<Reaction>, i: nat, n: nat): seq<Action>
    decreases n
  {
    if n == 0 then []
    else
      var r := ReactionTo(reactions, i);
      r.meanwhile + Body(r.bodies, 0) + UserActions(reactions, i + 1, n - 1)
  }

  /** The k-th event is dispatched. */
  function StateAtEvent(s: State, reactions: seq<Reaction>, i: nat, k: nat): State
    decreases k
  {
    if k == 0 then s
    else StateAtEvent(ApplyAll(s, EventSteps(s, ReactionTo(reactions, i))), reactions, i + 1, k - 1)
  }

  predicate EventReached(s: State, reactions: seq<Reaction>, i: nat, k: nat)
    decreases k
  {
    k == 0 ||
    (var here := EventSteps(s, ReactionTo(reactions, i));
     ReadError !in here && EventReached(ApplyAll(s, here), reactions, i + 1, k - 1))
  }

  /** The event of index `k` is for a handler of the user. */
  predicate CallsUser(s: State, r: Reaction)
  {
    var s1 := ApplyAll(s, Performed(r.meanwhile));
    !AtBreak(s1) && Apply(s1, Enter).active.InUser?
  }

  predicate AllUsers(s: State, reactions: seq<Reaction>, i: nat, n: nat)
    decreases n
  {
    n == 0 ||
    (CallsUser(s, ReactionTo(reactions, i)) &&
     AllUsers(ApplyAll(s, EventSteps(s, ReactionTo(reactions, i))), reactions, i + 1, n - 1))
  }

  lemma {:induction false} UserEventSteps(s: State, r: Reaction)
    requires CallsUser(s, r)
    ensures EventSteps(s, r) == Performed(r.meanwhile) + [Enter] + Performed(Body(r.bodies, 0)) + [Leave]
    ensures ReadError !in EventSteps(s, r)
    ensures ActionsOf(EventSteps(s, r)) == r.meanwhile + Body(r.bodies, 0)
  {
    hide Apply, AtBreak, ReadByte, ActionsOf, KeepsCallback;
    var s1 := ApplyAll(s, Performed(r.meanwhile));
    var d := DispatchSteps(s1, r.bodies);
    DispatchActions(s1, r.bodies);
    ActionsPerformed(r.meanwhile);
    ActionsConcat(Performed(r.meanwhile), d);
  }

  lemma {:induction false} UserBatchActions(s: State, reactions: seq<Reaction>, i: nat, n: nat)
    requires AllUsers(s, reactions, i, n)
    ensures ActionsOf(BatchSteps(s, reactions, i, n)) == UserActions(reactions, i, n)
    decreases n
  {
    hide EventSteps, ApplyAll, CallsUser, ActionsOf;
    if n == 0 {
      NoActions();
    } else {
      var r := ReactionTo(reactions, i);
      var here := EventSteps(s, r);
      UserEventSteps(s, r);
      UserBatchActions(ApplyAll(s, here), reactions, i + 1, n - 1);
      ActionsConcat(here, BatchSteps(ApplyAll(s, here), reactions, i + 1, n - 1));
    }
  }

  /** Whatever else happens to an event, other threads' calls come first. */
  lemma {:induction false} EventActions(s: State, r: Reaction)
    ensures var s1 := ApplyAll(s, Performed(r.meanwhile));
      ActionsOf(EventSteps(s, r)) == r.meanwhile + ActionsOf(DispatchSteps(s1, r.bodies))
  {
    hide ActionsOf, Performed, DispatchSteps, ApplyAll;
    ActionsPerformed(r.meanwhile);
    ActionsConcat(Performed(r.meanwhile), DispatchSteps(ApplyAll(s, Performed(r.meanwhile)), r.bodies));
  }

  /** The calls of one turn: those before the batch, and those around its
      events; none of the latter when waiting fails. */
  lemma {:induction false} TurnActions(s: State, turn: Turn)
    ensures turn.waitFails ==> ActionsOf(TurnSteps(s, turn)) == turn.before
    ensures !turn.waitFails ==>
      var s1 := Apply(ApplyAll(s, Performed(turn.before)), Fetch);
      && ActionsOf(TurnSteps(s, turn)) == turn.before + ActionsOf(BatchSteps(s1, turn.reactions, 0, |s1.todo|))
      && (AllUsers(s1, turn.reactions, 0, |s1.todo|) ==>
            ActionsOf(TurnSteps(s, turn)) == turn.before + UserActions(turn.reactions, 0, |s1.todo|))
  {
    var s0 := ApplyAll(s, Performed(turn.before));
    var s1 := Apply(s0, Fetch);
    TurnIs(s, turn, s0);
    hide TurnSteps, ActionsOf, Performed, BatchSteps, ApplyAll, Apply, AllUsers, UserActions;
    ActionsPerformed(turn.before);
    if !turn.waitFails {
      ActionsAround(Performed(turn.before), BatchSteps(s1, turn.reactions, 0, |s1.todo|));
      if AllUsers(s1, turn.reactions, 0, |s1.todo|) {
        UserBatchActions(s1, turn.reactions, 0, |s1.todo|);
      }
    }
  }

  lemma {:induction false} ActionsAround(a: seq<Step>, b: seq<Step>)
    ensures ActionsOf(a + [Fetch] + b) == ActionsOf(a) + ActionsOf(b)
  {
    assert [Fetch][..0] == [];
    assert ActionsOf([Fetch]) == [];
    hide ActionsOf;
    ActionsConcat(a, [Fetch]);
    ActionsConcat(a + [Fetch], b);
    assert ActionsOf(a) + [] == ActionsOf(a);
  }

  /** The steps of an event that is reached are taken. */
  lemma {:induction false} ReachedEvent(s: State, reactions: seq<Reaction>, i: nat, n: nat, k: nat, step: Step)
    requires k < n && EventReached(s, reactions, i, k)
    requires step in EventSteps(StateAtEvent(s, reactions, i, k), ReactionTo(reactions, i + k))
    ensures step in BatchSteps(s, reactions, i, n)
    decreases k
  {
    hide EventSteps, ApplyAll;
    if k > 0 {
      var here := EventSteps(s, ReactionTo(reactions, i));
      ReachedEvent(ApplyAll(s, here), reactions, i + 1, n - 1, k - 1, step);
    }
  }

  /** The k-th turn is reached. */
  function StateAtTurn(s: State, turns: seq<Turn>, k: nat): State
    requires k <= |turns|
    decreases k
  {
    if k == 0 then s else StateAtTurn(ApplyAll(s, TurnSteps(s, turns[0])), turns[1..], k - 1)
  }

  predicate TurnReached(s: State, turns: seq<Turn>, k: nat)
    requires k <= |turns|
    decreases k
  {
    k == 0 ||
    (var here := TurnSteps(s, turns[0]);
     && !turns[0].waitFails && ReadError !in here && BreakRead !in here
     && TurnReached(ApplyAll(s, here), turns[1..], k - 1))
  }

  lemma {:induction false} ReachedTurn(s: State, turns: seq<Turn>, k: nat, step: Step)
    requires k < |turns| && TurnReached(s, turns, k)
    requires step in TurnSteps(StateAtTurn(s, turns, k), turns[k])
    ensures step in RunSteps(s, turns)
    decreases k
  {
    hide TurnSteps, ApplyAll;
    if k > 0 {
      ReachedTurn(ApplyAll(s, TurnSteps(s, turns[0])), turns[1..], k - 1, step);
    }
  }

  /** The state in which the batch of the k-th turn has been fetched. */
  function FetchedAt(s: State, turns: seq<Turn>, k: nat): State
    requires k < |turns|
  {
    Apply(ApplyAll(StateAtTurn(s, turns, k), Performed(turns[k].before)), Fetch)
  }

  lemma {:induction false} ActionsAreSteps(steps: seq<Step>, a: Action)
    ensures a in ActionsOf(steps) <==> Act(a) in steps
  {
    if steps != [] {
      var init, last := steps[..|steps| - 1], steps[|steps| - 1];
      assert steps == init + [last];
      ActionsAreSteps(init, a);
    }
  }

  /** The handler called for the next event makes the call `a`: the user's
      handler, or a callback of the timer whose expirations are replayed. */
  predicate Makes(s: State, r: Reaction, a: Action)
  {
    var s1 := ApplyAll(s, Performed(r.meanwhile));
    var s2 := Apply(s1, Enter);
    !AtBreak(s1) &&
    match s2.active
    case InUser(_) => a in Body(r.bodies, 0)
    case Expired(t, _) =>
      var s3 := Apply(s2, Drain);
      KeepsCallback(s3, t, r.bodies, 0, Remaining(s3, t)) && a in Bodies(r.bodies, 0, Remaining(s3, t))
    case _ => false
  }

  lemma {:induction false} MadeIsStep(s: State, r: Reaction, a: Action)
    requires Makes(s, r, a)
    ensures Act(a) in EventSteps(s, r)
  {
    var s1 := ApplyAll(s, Performed(r.meanwhile));
    DispatchActions(s1, r.bodies);
    hide DispatchSteps, Apply, AtBreak, KeepsCallback, ApplyAll, ActionsOf;
    ActionsAreSteps(DispatchSteps(s1, r.bodies), a);
  }

  /** The j-th event of the k-th batch is reached, and its handler makes the
      call `a`. */
  predicate HandlerReaches(s: State, turns: seq<Turn>, k: nat, j: nat, a: Action)
  {
    && k < |turns| && TurnReached(s, turns, k) && !turns[k].waitFails
    && var s1 := FetchedAt(s, turns, k);
       && j < |s1.todo| && EventReached(s1, turns[k].reactions, 0, j)
       && Makes(StateAtEvent(s1, turns[k].reactions, 0, j), ReactionTo(turns[k].reactions, j), a)
  }

  lemma {:induction false} TurnTakesBatch(s: State, turn: Turn, step: Step)
    requires !turn.waitFails
    requires var s1 := Apply(ApplyAll(s, Performed(turn.before)), Fetch);
      step in BatchSteps(s1, turn.reactions, 0, |s1.todo|)
    ensures step in TurnSteps(s, turn)
  {
    hide BatchSteps, Apply, ApplyAll, Performed;
  }

  /** Whatever a handler that is reached does, is done. */
  lemma {:induction false} ReachedHandlerActs(s: State, turns: seq<Turn>, k: nat, j: nat, a: Action)
    requires HandlerReaches(s, turns, k, j, a)
    ensures Act(a) in RunSteps(s, turns)
  {
    hide TurnSteps, RunSteps, BatchSteps, EventSteps, Makes, EventReached, TurnReached, StateAtEvent,
      StateAtTurn, Apply, ApplyAll;
    var reactions, s1 := turns[k].reactions, FetchedAt(s, turns, k);
    MadeIsStep(StateAtEvent(s1, reactions, 0, j), ReactionTo(reactions, j), a);
    ReachedEvent(s1, reactions, 0, |s1.todo|, j, Act(a));
    TurnTakesBatch(StateAtTurn(s, turns, k), turns[k], Act(a));
    ReachedTurn(s, turns, k, Act(a));
  }
}
