# Event machine: model and proofs

A model of the epoll event loop in `src/event-machine.c` and of the timers in
`src/event-timer.c` that run on it, in the configuration with epoll and pipe2.
Handlers call back into the machine while a batch that was already fetched is
being dispatched, other threads ask it to terminate at any moment, and timers
expire meanwhile. The proofs are about what holds through all of that.

## How it is built

- `Epoll.dfy`: the kernel as explicit state. A table of open descriptors, the
  interest set, a FIFO ready list, the break pipe as a bounded byte count,
  timer descriptors, a monotonic clock. The assumptions about the kernel are
  named at the head of the file.
- `ReadyList.dfy`: facts about the ready list, and the well-formedness that every
  kernel operation keeps, including that whatever is ready and level-triggered
  is queued.
- `Machine.dfy`, `Timers.dfy`: what each function of the library does to the
  state, with its error returns.
- `Protocol.dfy`: the running loop as small steps. API calls and environment
  changes (`Act`) may come between any two steps; the steps of the loop come
  only in the order that the control state permits (`Follows`).
- `EventMachine.dfy`: the C functions branch by branch as methods of the classes
  `EventMachine` and `EventTimer`, which update fields in place, fill the event
  buffer and write through `*old_ed`. Each is proved against the functions
  above; the loops return the protocol steps they took. What handlers and other
  threads do is an arbitrary script.
- `Script.dfy`, `Runs.dfy`: the steps that a run takes for a script, which calls
  these are, and what event_machine_run() guarantees. `Outcomes.dfy`: every result
  code on its condition.
- `BreakLoop.dfy`, `Rounds.dfy`, `Termination.dfy`, `Registry.dfy`,
  `TimerLife.dfy`, `Population.dfy`, `Expiry.dfy`, `Dispatch.dfy`, `Service.dfy`,
  `WholeRun.dfy`: the theorems. `Quotients.dfy` has their arithmetic. `hide`
  statements in proofs keep definitions out that a step does not need.

The theorems quantify over every sequence of steps. They differ in what they
ask of handlers and other threads:

- `Polite`: leave the queue and the two ends of the break pipe alone. Nothing
  else is restricted.
- `RegistryRule`: polite, and pass `event_machine_modify()` a descriptor for the file
  descriptor it names, and with a removing storage do not close what is still
  registered. The user's storage does not refuse insertions.
- `Orderly`: polite, and register own descriptors with a handler, reach a timer's
  descriptor through the timer functions only, create a timer in an unused
  handle, destroy one that is in use and owes no more callbacks. The storage may
  refuse any insertion, and registered user descriptors may be closed.
- `Careful`: orderly, and do not end or replace a registration whose event waits
  in the current batch. `MindsOwn` (a handler touches only what it was called
  for) implies it. `StaleExactly` says of each call exactly when it would make
  such an event stale.

## Where the code differs from its documentation

- `src/event-timer.c:169` multiplies the remaining milliseconds by 1000 where
  nanoseconds need 1000000. The model keeps the code; `EncodingShortfall` says
  how much is lost and `EncodingExact` exactly when nothing is.
- `src/event-machine.c:504` leaves `*old_ed` untouched when the storage hands
  nothing back; `src/event-machine.h:410` promises NULL. `OldDescriptorReturned`
  says what a caller gets.
- `src/event-machine.c:119` retries only for a modification that fails with
  EEXIST, which that operation does not report; the retry has no effect.
- With a removing storage that does not know the descriptor,
  `event_machine_modify()` changes the kernel and then fails, unlike deletion
  followed by addition (`src/event-machine.h:433`). `ModifyIsDeleteThenAdd` gives
  the exact condition, and `RefusedAddThenModify` a way to get there.

## Model

| member | source | states |
|---|---|---|
| `ReadyList.WaitFacts` | src/event-machine.c:148-158 | One wait returns at most max_events events, one per file descriptor, each with the registered descriptor and a non-empty ready mask, and leaves the kernel well formed: nothing level-triggered and ready drops out of the ready list. |
| `ReadyList.WaitProgress` | src/event-machine.c:322-322 | A queued, ready descriptor is in the next batch, or its entry moves up by a whole batch. |
| `BreakLoop.RunSafe` | src/event-machine.c:314-393 | Every step of every polite interleaving keeps the machine's invariant: kernel well formed, break entry registered, batch with one event per descriptor, a break event only while its byte is pending, bytes accounted for. |
| `BreakLoop.ByteConservation` | src/event-machine.c:333-347 | At any moment, bytes written = bytes pending in the pipe + runs that returned success + the byte the current run has read. |
| `BreakLoop.BreakReadNeverFails` | src/event-machine.c:338-346 | The read of the break byte never finds the pipe empty, so that error branch is not reached. |
| `BreakLoop.TerminateIsNotLost` | src/event-machine.c:395-428 | At any moment of any run event_machine_terminate() returns success with a byte in the pipe and the break entry queued; it writes a byte exactly when the pipe was not full. |
| `BreakLoop.InternalEntryIsPrivate` | src/event-machine.c:228-253 | Throughout, exactly one interest entry has the break descriptor, it is the internal one, and adding another for it fails with EM_ERROR_EVENT_CTL and changes nothing. |
| `BreakLoop.NeverCallsInternalHandler` | src/event-machine.c:237-241 | No handler call is ever made for the break descriptor, whose handler is NULL. |
| `Rounds.ReadyIsReached` | src/event-machine.c:322-352 | From any moment of any run, in mid-batch or inside a handler: the event of a descriptor that is level-triggered and stays ready is dispatched before more than n further batches are fetched, and by the end of the n-th; n is 0 if it is in the current batch and p / max_events + 1 at position p of the ready list. |
| `Termination.BoundedTermination` | src/event-machine.c:381-392 | At any moment at which a byte is in the break pipe, also in mid-batch or inside a handler: the byte is read before more than n further batches are fetched, and by the end of the n-th, with n as above for the break entry, whatever handlers and threads do meanwhile. |
| `Termination.WholeRunBound` | src/event-machine.c:381-390 | From any such moment the rest of the run fetches at most n batches altogether, and none once the byte has been read. |
| `Dispatch.TraceIsBatches` | src/event-machine.c:328-352 | When the last batch is done, the handler calls are the fetched batches concatenated without break events: in order, exactly once, including events after the break event. |
| `Dispatch.RunFaithful` | src/event-machine.c:328-352 | The same in the middle of a batch: calls made, followed by events not yet dispatched, are the events fetched. |
| `Registry.StorageMirrorsKernel` | src/event-machine.c:457-467 | Over every run, failing calls included: a removing storage equals the interest set without the break entry; an insert-only one holds the current descriptor of everything registered; and no permitted call reports a duplicate or missing entry. |
| `Registry.CallMirrors` | src/event-machine.c:571-582 | The step of that: each single API call, timer functions included, keeps storage and interest set in step and reports no storage error. |
| `Registry.ModifyIsDeleteThenAdd` | src/event-machine.c:545-583 | For a registered descriptor, modify and delete-then-add both succeed with equal interest set, storage and handed-back descriptor, and the same descriptors queued and ready, all others in the same order, if and only if a removing storage, when there is one, knows the descriptor. |
| `Registry.ModifyQueue` | src/event-machine.c:557-568 | The two ready lists in full: they agree without the descriptor; deletion and addition leave it queued exactly when it is ready, modification also when it was queued before. |
| `Registry.SameBatchUnlessReady` | src/event-machine.c:557-568 | The entry that modification leaves queued is never delivered: when the descriptor is not ready, the next wait returns the same batch either way. |
| `Registry.RefusedAddThenModify` | src/event-machine.c:462-465 | The failing state is reached: after one addition that a removing storage refuses, the descriptor is registered but unknown to the storage, and modify changes the kernel and fails with EM_ERROR_STORAGE_NO_SUCH_ENTRY. |
| `TimerLife.CreateOutcome` | src/event-timer.c:97-156 | Exactly when timer creation succeeds, and the whole state afterwards; otherwise everything but the handle is as before. |
| `TimerLife.FailedCreateIsAtomic` | src/event-timer.c:128-153 | Once timerfd_create() has succeeded, a creation that fails, even after the kernel accepted the timer and the storage refused it, leaves descriptor table, interest set, ready list and storage as they were and the handle shredded. |
| `TimerLife.DestroyOutcome` | src/event-timer.c:203-245 | For every handle, registered or not and whatever has become of the queue: exactly when destruction succeeds, and the whole state afterwards; the descriptor is closed in any case. |
| `TimerLife.CreateDestroyRoundTrip` | src/event-timer.c:203-245 | Creation followed by destruction restores the kernel state, and the storage unless it is insert-only, touches no other handle and shreds this one. |
| `Population.NoStaleDispatch` | src/event-machine.c:328-352 | Over every careful run, whichever insertions the storage refuses, each handler call is for the descriptor registered at that moment for its file descriptor, though handlers change the registry in mid-batch, and no call goes through a NULL handler or callback. |
| `Population.MindingOwnIsCareful` | src/event-machine.c:350-350 | If each handler deletes, modifies, closes and destroys only what it was called for, the run is careful. |
| `Population.StaleExactly` | src/event-machine.c:328-352 | An orderly call leaves every event that is still to be dispatched with its registered descriptor if and only if it does not end or replace a registration whose event waits in the batch. |
| `Population.RunSteady` | src/event-machine.c:328-352 | Every step of a careful run keeps the combined invariant: machine, population of the interest set, timers known to the storage, freshness of the undispatched events. |
| `Population.OneEntryPerTimer` | src/event-timer.c:123-128 | At any moment the interest set is the break entry, user entries, and exactly one entry per live timer, which points at the timer's own handle; no two timers share a descriptor. |
| `Population.NeverDisturbed` | src/event-timer.c:203-245 | Over any run in which no timer function is called on it, a live timer keeps its handle and its registration. |
| `Expiry.TimerConservation` | src/event-timer.c:59-83 | At every moment of every careful run, for every live timer: callbacks made for the current arming + iterations owed by the replay in progress + unread ticks = expirations due by the clock; callbacks left over from an interrupted replay are accounted for separately and exactly. |
| `Expiry.PeriodicConservation` | src/event-timer.c:166-184 | At every moment after a successful periodic start, also one made inside a replay: callbacks + iterations owed by the replay in progress + unread ticks = elapsed time / encoded period + what the interrupted replay had left; the quotient is never less than elapsed time / the period asked for. |
| `Expiry.PeriodicBetweenCalls` | src/event-timer.c:77-82 | Started outside its own replay and seen between handler calls: callbacks + unread ticks = elapsed time / encoded period. |
| `Expiry.CallbacksAreCounted` | src/event-timer.c:77-82 | While the timer is not started, stopped or destroyed, its account grows by exactly the callbacks made. |
| `Expiry.UpToDateExpirations` | src/event-timer.c:171-176 | Expiring step by step arrives at the closed form 1 + (now - start - value) / interval. |
| `Expiry.ElapseCounts` | src/event-timer.c:171-178 | Letting time pass turns a correct tick count into a correct tick count for the later time. |
| `Expiry.OneShotBound` | src/event-timer.c:171-178 | One one-shot arming yields at most one callback until the next arming, beside those an interrupted replay still makes. |
| `Expiry.StopBound` | src/event-timer.c:186-201 | After a stop, the callbacks until the next start are at most, and in the end exactly, those the replay in progress still had to make. |
| `Expiry.EncodingShortfall` | src/event-timer.c:166-170 | The encoded timeout is a valid timespec, decodes back to the milliseconds, and is short by 999000 ns per millisecond of the remainder modulo 1000. |
| `Expiry.EncodingExact` | src/event-timer.h:162-166 | The timer keeps the time asked for if and only if it is a whole number of seconds. |
| `Expiry.EncodingMonotone` | src/event-timer.c:166-170 | A longer timeout is encoded as a longer time. |
| `Expiry.EncodingInjective` | src/event-timer.c:166-170 | Different timeouts are encoded differently. |
| `Expiry.EncodingNegative` | src/event-timer.c:166-170 | The encoding, with C's truncating division, is a valid timespec exactly for non-negative timeouts. |
| `Service.ReadyIsServed` | src/event-machine.c:330-350 | Any registered, level-triggered descriptor that stays ready has its handler called within the same bound, from any moment of any polite run, however many others are ready, added or removed. |
| `Service.ExpiredTimerIsServed` | src/event-timer.c:68-74 | At any moment of a careful run at which a timer has unread ticks that its handler is not about to read: the handler is called within that bound, unless the timer is started, stopped or destroyed before. |
| `WholeRun.FromInitialisation` | src/event-machine.c:357-393 | From initialisation on, for handlers that touch only what they were called for, all of it at once: no stale or NULL call, bytes conserved, every timer balanced, trace equal to the batches, and under the registry rule storage mirrored. |
| `EventMachine.InitialHolds` | src/event-machine.c:228-255 | The state after a successful initialisation satisfies every invariant used above. |
| `EventMachine.EventMachine.Init` | src/event-machine.c:160-256 | Buffer and max_events defaults, who owns the buffer, which failure gives which code and leaves which descriptors open, and on success the initial state. |
| `EventMachine.EventMachine.Add` | src/event-machine.c:430-468 | Result code and whole new state in every branch, NULL arguments included. |
| `EventMachine.EventMachine.RemoveEventDescriptor` | src/event-machine.c:470-511 | Storage after removal, result code, and when the caller's variable is written. |
| `EventMachine.EventMachine.Delete` | src/event-machine.c:513-543 | Result code, whole new state and the caller's variable in every branch. |
| `EventMachine.EventMachine.Modify` | src/event-machine.c:545-583 | Result code, whole new state and the caller's variable in every branch. |
| `EventMachine.EventMachine.Terminate` | src/event-machine.c:395-428 | Result code and whole new state: a full pipe counts as success, any other write error does not. |
| `EventMachine.EventMachine.RunOnce` | src/event-machine.c:314-355 | The call takes exactly the steps of its turn: what others do before, one fetch, then for every event in order what others do before it and all that its handler does, to the end of the batch unless the break read fails; it fails with EM_ERROR_EVENT_WAIT exactly when waiting does and with EM_ERROR_READ exactly when the read does, and reports whether the break byte was read; every buffer index is within bounds. |
| `EventMachine.EventMachine.Run` | src/event-machine.c:357-393 | The argument checks in order; then exactly the steps of the script; EM_ERROR_EVENT_WAIT if and only if waiting for the next batch fails, EM_ERROR_READ if and only if the read of the break byte fails, EM_SUCCESS if and only if that byte has been read, and no other code; one byte read for a successful return; and from every moment of the run at which a byte is in the pipe, success within p / max_events + 1 further batches. |
| `Runs.TerminateEndsRun` | src/event-machine.c:381-392 | From any moment of a run at which event_machine_terminate() is called, by a handler or another thread: the run ends with success within the bound above. |
| `Runs.HandlerEndsRun` | src/event-machine.c:350-350 | A handler or timer callback that is reached and calls event_machine_terminate() ends the run so. |
| `EventMachine.EventMachine.InternalTimeoutHandler` | src/event-timer.c:59-83 | Takes exactly the steps of one read and of as many callbacks as expirations were unread, the i-th callback making the calls of the i-th body as long as the handle has its callback; none when there were none. |
| `Script.DispatchActions` | src/event-machine.c:333-351 | One dispatch makes exactly the calls of the user's handler, or those of a timer's callback once for every expiration, or none for the break event. |
| `Script.ReplayActions` | src/event-timer.c:77-82 | The callbacks of a replay make their calls one body after the other, in order, as long as the handle has its callback. |
| `Script.FaultFreeKeepsCallback` | src/event-timer.c:79-81 | It has it throughout every replay that goes through no NULL pointer. |
| `Script.UserBatchActions` | src/event-machine.c:328-352 | The calls made around a batch for user handlers: for each event in order, what others do before it, then exactly what its handler does. |
| `Script.TurnActions` | src/event-machine.c:322-352 | The calls of one turn: those before the batch, then those around its events; only the former when waiting fails. |
| `Script.ReachedHandlerActs` | src/event-machine.c:350-350 | Every call that a handler or callback makes is a step of the run whenever its turn and its event are reached. |
| `EventMachine.EventTimer.Create` | src/event-timer.c:97-156 | Result code and whole new state in every branch. |
| `EventMachine.EventTimer.Start` | src/event-timer.c:158-184 | Result code and whole new state in every branch. |
| `EventMachine.EventTimer.Stop` | src/event-timer.c:186-201 | Result code and whole new state in every branch. |
| `EventMachine.EventTimer.Destroy` | src/event-timer.c:203-245 | Result code and whole new state in every branch, with the failing assertion on a shredded handle recorded as a fault. |
| `EventMachine.EventTimer.Shred` | src/event-timer.c:85-95 | The handle is cleared and its descriptor is -1. |
| `Outcomes.AddOutcome` | src/event-machine.c:430-468 | Each result of event_machine_add() if and only if its condition holds, for every state and failure; a rejected call changes nothing, and a storage failure leaves the descriptor registered and the storage as it was. |
| `Outcomes.DeleteOutcome` | src/event-machine.c:513-543 | The same for event_machine_delete(), with what is handed back. |
| `Outcomes.ModifyOutcome` | src/event-machine.c:557-582 | For a registered descriptor, each result of event_machine_modify() if and only if its condition holds, in every storage mode; a refused insertion is reported, with the kernel already holding the new descriptor and the storage as the removal left it. |
| `Outcomes.ModifyRejected` | src/event-machine.c:545-568 | In every other case modify fails with EM_ERROR_BADFD or EM_ERROR_EVENT_CTL, each on its condition, and changes nothing. |
| `Outcomes.TerminateOutcome` | src/event-machine.c:395-428 | event_machine_terminate() succeeds if and only if the write end is usable and no other error occurs; EM_ERROR_BADFD and EM_ERROR_WRITE each on their condition and with nothing changed; a success without a byte written means that the pipe was full. |
| `Outcomes.RunCheckOutcome` | src/event-machine.c:357-379 | Each argument error of event_machine_run() if and only if its condition holds and no earlier check fails. |
| `Outcomes.CreateCodes` | src/event-timer.c:97-156 | Each result of event_timer_create() if and only if its condition holds, and what each failure leaves in the handle. |
| `Outcomes.DestroyCodes` | src/event-timer.c:203-245 | Each result of event_timer_destroy() if and only if its condition holds. |
| `Outcomes.StartOutcome` | src/event-timer.c:158-184 | event_timer_start() succeeds if and only if the handle has an open timer and the timeout is not negative, and then sets value and interval to the encoded period, the interval to zero for one shot. |
| `Outcomes.StopOutcome` | src/event-timer.c:186-201 | event_timer_stop() succeeds if and only if the handle has an open timer, which it disarms and drains. |

## Remarks

Smaller facts, each close to one definition:

- `Registry.UnregisteredAlike`: for a descriptor that is not registered, modify
  and delete fail alike and change nothing (src/event-machine.c:565-574).
- `Registry.OldDescriptorReturned`: deletion hands back the registered descriptor
  if the storage removes entries, and nothing otherwise
  (src/event-machine.c:489-510).
- `Registry.DeniedModifyIsSafer`: a denied modify changes nothing, where deletion
  and a denied addition leave nothing registered (src/event-machine.h:433-434).
- `Population.CarelessDeleteIsStale`: a handler that deletes the descriptor whose
  event is next makes the following call stale (src/event-machine.c:330-350).
- `Population.CarelessDestroyFaults`, `Population.DestroyInReplayFaults`:
  destroying the timer whose event is next, or a timer from its own callback
  while iterations remain, leads to a call through NULL
  (src/event-timer.c:77-82, 237-242).
- `Expiry.StartSucceeds`, `Expiry.FirstCallbackRemaining`: start succeeds exactly
  for a non-negative timeout; in the first callback of n expirations n - 1 remain
  (src/event-timer.c:67-82, 178-183).

## Left out

- `EventMachine.EventMachine.Run`: what happens around the run is given as a finite sequence of batches; an endless run is covered by its finite prefixes, for which the outcome is "still running".
- `EventMachine.EventMachine.RemoveEventDescriptor`: a storage whose removal fails and yet hands back a descriptor is not modelled; a map fails only for a missing entry and then has nothing to hand back.
- `EventMachine.EventMachine.Init`: says which descriptors a failing call leaves open, not which memory.
- event_machine_destroy(): the semicolon at src/event-machine.c:270 makes it return EM_ERROR_CLOSE for every initialised machine, before any cleanup.
- The kqueue build and the build without pipe2: event_ctl() ignores its operation under kqueue, so nothing about deletion or modification carries over.
- More than one machine in a process, duplicated file descriptors, nested epoll instances, EPOLLONESHOT: the model has one queue and one pipe, and a closed descriptor leaves the interest set.
- Several threads in event_machine_run(), a handler that calls it, and registry changes by other threads while a batch is dispatched: event_machine_terminate() is the only asynchronous call the library is written for.
- Memory of user descriptors after they are handed back: a user descriptor keeps its contents; timer handles are followed through memory as they are at the moment of the call.
- Wrap-around of the 64-bit expiration counter and of the clock, malloc() failure, errno values, event masks other than in, out, error, hang-up and edge-triggered.
- Handlers' own effects beyond their calls into the library and the descriptors they open, close, fill or drain.
