/** Everything at once, for a process from event_machine_init() onwards. */
module WholeRun {
  import opened Machine
  import opened Protocol
  import opened BreakLoop
  import opened Registry
  import opened Population
  import opened Expiry
  import opened Dispatch
  import opened EventMachine

  /** From initialisation on, whatever the handlers and the other threads do,
      as long as each handler deletes, modifies, closes and destroys only what
      it was called for: no call goes to a stale descriptor or through a NULL
      pointer; every byte written has ended a run or is in the pipe; every
      timer's account balances; the handler calls are the fetched batches in
      order; and under the registry rule storage and interest set mirror each
      other. */
  lemma {:induction false} FromInitialisation(s: State, steps: seq<Step>)
    requires Initial(s) && Follows(s, steps) && Obeys(MindsOwn, s, steps)
    ensures var s' := ApplyAll(s, steps);
      && AllLive(s'.log.trace) && s'.log.faults == 0
      && s'.log.written == s'.kernel.pending + s'.log.finished + (if s'.broke then 1 else 0)
      && (Obeys(RegistryRule, s, steps) ==> Mirrored(s'))
      && (forall t :: t in s'.handles && IsLive(s'.handles[t]) ==> Balanced(s', t))
      && (s'.todo == [] ==> EventsIn(s'.log.trace) == ForHandlers(s'.em.breakRead, s'.log.fetched))
  {
    InitialHolds(s);
    MindingOwnIsCareful(s, steps);
    RuleIsPolite(MindsOwn, s, steps);
    NoStaleDispatch(s, steps);
    ByteConservation(s, steps);
    RunFaithful(s, steps);
    RunAccounted(s, steps);
    if Obeys(RegistryRule, s, steps) {
      StorageMirrorsKernel(s, steps);
    }
    var s' := ApplyAll(s, steps);
    forall t | t in s'.handles && IsLive(s'.handles[t]) ensures Balanced(s', t) {
      AccountedBalances(s', t);
    }
  }
}
