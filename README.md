# Gatekeeper

A model of the Gatekeeper of openhab-rules-tools (`gatekeeper.js`). A
Gatekeeper queues `[pause, action]` commands and runs them one at a time. Each
command's pause says how long to wait before the next command runs, and the
time the action itself took is subtracted from that wait. The Gatekeeper drives
itself with a timer whose callback is the drain step, and that callback re-arms
the timer.

Two modules:

- `GatekeeperSpec` (`gatekeeper_spec.dfy`) holds the values. `State` is the
  queue of commands and the timer, where the timer is `NoTimer`, `Armed(at)` or
  `Terminated(at)`. It also holds the drain step, `addCommand`, `cancelAll` and
  a timer firing as functions on `State` (`Drain`, `Add`, `CancelAll`, `Fire`).
  A semantics for whole runs of events (`Exec`) builds on these, and the module
  proves the properties the Gatekeeper promises: FIFO order, immediate
  execution when idle, clearing by `cancelAll`, trigger-time arithmetic, and
  stalling only after a failure.
- `Gatekeeper` (`gatekeeper.dfy`) holds the class `Gatekeeper`. Its fields
  `commands`, `timer` and `name` are updated in place, just as the JavaScript
  object's are. Two ghost logs sit beside them: the actions added and the
  actions executed. Each method is specified by the matching function of
  `GatekeeperSpec` and keeps that module's invariant `Inv`. That invariant says
  the executed actions followed by the queued ones appear in the order they
  were added, and a null timer means an empty queue.

Time is integer milliseconds. The clock readings of a drain step come in as a
`Run` parameter: `before` and `after` are read around the action, and
`resolveNow` is the instant at which `toZDT` resolves the pause. `Run` also
carries a flag that says whether the action threw. An action is an identity
(`ActionId`). A pause is an absolute instant (`At`), a duration from the moment
of resolution (`After`), or a value `toZDT` cannot parse (`Unparseable`).

Three details of the code shape the model:

- The pause is resolved with `toZDT` only after the action has finished
  (gatekeeper.js:43-46). The relative target is therefore `resolveNow + d`.
  After the run time is subtracted, the trigger is
  `before + d + (resolveNow - after)`, which equals `before + d` exactly when
  no time passes between the end of the action and the resolution.
- The run time is also subtracted from an absolute pause (gatekeeper.js:45-47).
- `cancelAll` does not set `timer` to null (gatekeeper.js:71-76). It cancels
  the handle, which then reports `hasTerminated()`.

## Model

| member | source | states |
|---|---|---|
| Gatekeeper.Gatekeeper.constructor | gatekeeper.js:16-21 | A new Gatekeeper has an empty queue, a null timer, the given name, and empty logs; the invariant holds |
| Gatekeeper.Gatekeeper.ProcCommand | gatekeeper.js:29-53 | The drain step changes the fields exactly as `Drain` says; the popped action joins the executed log once, whether or not it throws |
| Gatekeeper.Gatekeeper.AddCommand | gatekeeper.js:61-66 | addCommand changes the fields as `Add` says: append at the tail, then one drain step if the timer is null or terminated; the action joins the added log; the FIFO invariant is kept |
| Gatekeeper.Gatekeeper.Fire | gatekeeper.js:49 | A firing of the armed timer terminates it and runs the drain step, as `Fire` says; the FIFO invariant is kept |
| Gatekeeper.Gatekeeper.CancelAll | gatekeeper.js:71-76 | cancelAll empties the queue and cancels a non-null timer, as `CancelAll` says; the name and the logs are untouched; the invariant is kept |
| GatekeeperSpec.Resolve | gatekeeper.js:46 | `toZDT` fails exactly on an unparseable pause; a relative pause resolves to the pause after the given instant; an absolute one to itself |
| GatekeeperSpec.TriggerTime | gatekeeper.js:45-47 | The trigger plus the action's run time is the resolved pause; with a clock that does not go backwards, it is never later than the resolved pause |
| GatekeeperSpec.NeedsKick | gatekeeper.js:63 | The guard of addCommand holds exactly when no timer is armed |
| GatekeeperSpec.Drain | gatekeeper.js:29-53 | The drain step goes idle exactly on an empty queue; the actions it runs followed by the remaining queue are the queue before it (only the head is removed, and it is run); a run that completes leaves the timer armed at the reported trigger |
| GatekeeperSpec.Add | gatekeeper.js:61-66 | addCommand runs a drain step exactly when the guard holds; otherwise it only appends; either way, the actions run followed by the queue are the old queue plus the new action at the tail |
| GatekeeperSpec.Fire | gatekeeper.js:49 | A timer firing runs a drain step exactly when the timer is armed and changes nothing otherwise; the actions run followed by the queue are the queue before it |
| GatekeeperSpec.Cancel | gatekeeper.js:73 | A cancelled timer is not armed, stays null exactly when it was null, and keeps its instant |
| GatekeeperSpec.CancelAll | gatekeeper.js:71-76 | cancelAll leaves an empty queue and no armed timer, and the timer is null afterwards exactly when it was null before |
| GatekeeperSpec.DrainEmpty | gatekeeper.js:33-35 | A drain step on an empty queue nulls the timer, leaves the queue empty and runs nothing |
| GatekeeperSpec.DrainPops | gatekeeper.js:38-50 | A drain step on a non-empty queue shortens it by exactly one (the head), runs exactly the head's action once, and arms exactly one new timer at the reported trigger; if the action throws or the pause cannot be resolved, the timer is left as it was and the rest stays queued |
| GatekeeperSpec.RelativePauseCompensated | gatekeeper.js:41-47 | For a relative pause d the trigger is `before + d` shifted by the lag between the action's end and the resolution; it is exactly `before + d` with no lag, and never earlier while the clock does not go backwards |
| GatekeeperSpec.AbsolutePauseShifted | gatekeeper.js:45-47 | For an absolute pause t the trigger is t minus the action's run time |
| GatekeeperSpec.OverrunFiresAtOnce | gatekeeper.js:41-49 | When the action took at least its relative pause, the new timer is already due when it is armed: its trigger is no later than the instant the pause was resolved, and no later than the end of the action when the resolution follows at once |
| GatekeeperSpec.AddWhileArmedOnlyAppends | gatekeeper.js:61-65 | With a live timer, addCommand only appends the command at the tail |
| GatekeeperSpec.AddWhenIdleRunsOldest | gatekeeper.js:61-65 | With a null or terminated timer, addCommand runs exactly one drain step, which runs the oldest queued command; on an empty queue that is the new command, before addCommand returns |
| GatekeeperSpec.CancelThenAddRunsAtOnce | gatekeeper.js:61-76 | cancelAll leaves an empty queue and no live timer (null stays null, anything else is terminated), so the next addCommand runs its own command at once |
| GatekeeperSpec.FailureStallsUntilNextAdd | gatekeeper.js:38-65 | An action that throws in a timer callback is not re-run, arms no timer, and leaves the rest queued behind a terminated timer that never fires; the next addCommand resumes with the oldest remaining command |
| GatekeeperSpec.AddKeepsInv | gatekeeper.js:61-66 | addCommand keeps the invariant: the run and queued actions are an ordered subsequence of the added ones, and a null timer means an empty queue |
| GatekeeperSpec.FireKeepsInv | gatekeeper.js:29-53 | A timer firing keeps the invariant |
| GatekeeperSpec.CancelKeepsInv | gatekeeper.js:71-76 | cancelAll keeps the invariant: it drops a suffix of the pending actions |
| GatekeeperSpec.StepKeepsInv | gatekeeper.js:29-76 | Every event (addCommand, timer firing, cancelAll) keeps the invariant |
| GatekeeperSpec.ExecFromKeepsInv | gatekeeper.js:29-76 | Any run of events started in a state that satisfies the invariant keeps it, with the run's executed and added actions appended to the logs |
| GatekeeperSpec.ExecKeepsInv | gatekeeper.js:16-76 | In every state reachable from a new Gatekeeper, the run and queued actions occur in addCommand order, and a null timer means an empty queue |
| GatekeeperSpec.ExecutedInAddOrder | gatekeeper.js:39-62 | Over any run of events, including cancellations, the executed actions are an ordered subsequence of the added ones: none runs twice and none overtakes an earlier one |
| GatekeeperSpec.CancelledNeverRun | gatekeeper.js:71-76 | Commands queued when cancelAll runs never execute: everything executed in any run after a cancelAll is an ordered subsequence of what was added after it |
| GatekeeperSpec.ExecAppend | gatekeeper.js:29-76 | A run split in two: the second part starts from the state where the first ended, and its executed actions follow the first part's |
| GatekeeperSpec.CancelInRun | gatekeeper.js:61-76 | With a cancelAll in the middle of a run from a new Gatekeeper, the actions executed before it are unchanged, and every action executed after it was added after it |
| GatekeeperSpec.StepMovesInOrder | gatekeeper.js:39-62 | An addCommand or a timer firing moves actions from the head of the queue to the run log in order and appends the added action at the tail |
| GatekeeperSpec.StepKeepsExact | gatekeeper.js:29-66 | Without cancellation, an event keeps run actions followed by queued actions equal to the added actions |
| GatekeeperSpec.ExecFifoWithoutCancel | gatekeeper.js:29-66 | Over any run without cancelAll, the executed actions followed by the queued ones are exactly the added actions in call order: each ran exactly once, in FIFO order, or is still queued |
| GatekeeperSpec.StepKeepsHealthy | gatekeeper.js:29-66 | Without failures, an event keeps this property: a non-empty queue has a live timer, a null timer means an empty queue, and every queued pause is resolvable |
| GatekeeperSpec.NoStallWithoutFailure | gatekeeper.js:16-76 | Over any run in which no action throws and every pause resolves, queued commands always have an armed timer whose callback is the drain step; only a failure leaves commands waiting for the next addCommand |

## Left out

- The openHAB scheduler (`helpers.createTimer`) is abstracted. An armed timer may fire at any time (`Fire` requires only that it is armed), so the model does not relate firing to its trigger instant.
- `time.toZDT` is not parsed. Its many accepted forms are reduced to `At`, `After` and `Unparseable`, and `ZonedDateTime`/`Duration` are integer milliseconds.
- Java's `ArrayDeque` is modelled as a `seq`, with `add` as append and `pop` as removal of the head.
- Exceptions are not propagated. An action that throws, or a pause that cannot be resolved, comes back as an `Outcome`, and the state is left as the source leaves it when the exception escapes.
- Concurrency between a timer thread and `addCommand` is left out, and so is the race between `cancelAll` and a firing timer. The source has no locking, and the model is sequential.
- A re-entrant `addCommand` is left out: actions are opaque identities, so an action cannot call `addCommand` while a drain step is running.
- While a timer's callback runs, its `hasTerminated()` value is not modelled. The model marks the fired timer terminated before the callback's drain step runs.
- The timer labels (`this.name`, `'gatekeeper'`) are kept only as the `name` field. They are diagnostic.
