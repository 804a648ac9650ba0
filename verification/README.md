# Verified models of doeff's scheduler, lazy environment, reader and effect search

The project models, in Dafny, the parts of doeff whose correctness spans whole runs, and proves
properties of the models.

**The cooperative scheduler** (`scheduled()` in `scheduler.py`). Its state is tasks, promises,
semaphores, a table of waiters, a priority heap, and a queue that foreign threads append to. Programs
are adversaries: an owner that executes may perform any well-typed effect, foreign completions may arrive
and handles may be collected at any moment. A run is a sequence of such actions from the empty scheduler
(`SchedulerSteps`), and the main results hold in every state of every run.

* `SchedulerModel`, `SchedulerSteps`: the state and what each closure, each effect and each turn of
  `pick_next` does to it, as functions.
* `SchedulerObject` (`Scheduler.dfy`): class `Scheduler`, the closures with the loops and in-place updates
  they are written with; each method is proved equal to the function on states that the theorems are about.
* `SchedulerInvariant`, `SchedulerWaking`, `SchedulerResolving`, `SchedulerEffects`, `SchedulerPermits`,
  `SchedulerSweep`, `SchedulerRuns`, `SchedulerDispatch`, `SchedulerSafety`: the invariant of all runs.
* `SchedulerTheorems`, `SchedulerResults`, `SchedulerJoins`, `SchedulerDelivery`, `SchedulerAnswers`,
  `SchedulerConservation`, `SchedulerFlights`, `SchedulerFairness`, `SchedulerHolders`, `StrayRelease`,
  `DeadlockDetector`, `ExternalDeadlock`, `RaisedDeadlock`, `PickOrder`, `StarvedWaiter`, `HandlePruning`: what
  follows for users of the scheduler.
* `SchedulerOutcomes`, `SchedulerReplies`, `SchedulerShields`, `SchedulerCreation`, `SchedulerSemaphores`: what each
  effect records, answers and leaves behind, in any run, in terms of the entries of waitables and semaphores alone.

**Lazy environments** (`lazy_ask` in `handlers.py`). A program is any function from the answers it has got so
far to what it does next. `LazyAsk` relates evaluation through `scope_cache` and `shared_cache` to evaluation
afresh, and holds the handler and its closure as classes; `LazyHits` says what the caches save. `LazyOnce` is about
concurrent asks: the handler's steps are effects in runs of the scheduler, its semaphores the scheduler's; each task
has what its last Ask was answered with. `LazyAnswers` says that asks lead on, and with what they are answered.

**The Hy reader** (`hy_reader.rs`). `HyReader` holds the reader as functions, a canonical printing, the theorems
that connect them, and the reader itself as a class with a position. `HyGrammar` says, without reading, which trees
stand where in a source; the reader succeeds on exactly those, and its errors are about the rest. `HyComments` is
about comments, `HyBytes` about offsets in bytes.

**The effect search** (`gather_all_effects` in `deps.rs`). `Deps` says exactly what a memoised query returns on
any call graph, and when that is all reachable effects.

## What the proofs turned up

* Semaphores: the number of free permits can exceed `max_permits`, because neither a release nor
  `return_inflight_permit` checks who gives the permit back. `StrayRelease.PermitsAreMinted` is a run from the empty
  scheduler that does it; `SchedulerConservation.PermitsAreConservedIff` says when: over any run, free and held
  permits equal `max_permits` if and only if every release the semaphore accepted was made by a holder, and otherwise
  there is exactly one permit more for each stray release (`PermitsAreCounted`). A semaphore accepts a release, whoever
  makes it, if and only if somebody not cancelled waits for it or not all permits are free (`RefusedIffNotAccepted`).
* `pick_next`: the shield of a wait for an external promise is meant to starve daemons only, but it can starve a task
  that waits for a permit. A permit on its way to a task cancelled since goes back only when its entry comes up, and an
  entry behind a standing placeholder does not come up while nothing but daemons is live. `StarvedWaiter.AWaiterStarves`
  is a run without daemons that blocks so; without daemons, a call with nothing queued or arriving picks something if and only
  if something live is in the heap or such a permit, waited for, has no standing placeholder ahead of it
  (`StarvedWaiter.PicksWithoutDaemonsIff`). With daemons `PickOrder.PicksIffEligible` is the exact condition.
* `lazy_ask`: a lazy entry that asks for its own key inside a `Local` that would end the recursion waits for
  its own semaphore, although evaluating it afresh ends (`LazyAsk.ReentrantAskLocksItselfOut`). In a given
  environment some ask, under some overrides, locks itself out although its evaluation afresh ends, if and only if
  some such evaluation asks for its own key (`LazyAsk.LockedOutIffSomethingAsksForItself`). For a single program that
  condition suffices to exclude it (`CachingIsExactWithoutReentry`) but is not necessary: a value cached by an earlier
  ask can hide the re-entry (`AskingBeforeHidesReentry`).
* `gather_all_effects`: with cycles, queries after the first can miss effects
  (`Deps.LaterQueriesCanBePartial`). All queries are exact, whatever the direct effects and earlier queries, if and
  only if no two different functions reach each other (`Deps.ExactIffNoMutualRecursion`).

## Reading the model

* Tasks and promises are one map addressed by waitable key. Python objects with identity (gather and race
  states, `claimed` cells, continuations, handles) are numbers; a continuation is one-shot and opaque.
* The heap is a set of items with distinct order numbers; `heapq` is taken to return a least one.
* `holders` is a multiset, because its order is never read. A race repeats its pending keys as its keys.
* `PickTurn` with `diagnose` false is `pick_next` with its deadlock checks switched off: the theorems about
  `SchedulerDeadlockError` follow what would happen if the run simply went on.
* "Holder discipline": an owner releases a semaphore only when it is among its `holders`.

## Model

| member | source | states |
|---|---|---|
| SchedulerSafety.RunsAreSound | packages/doeff-core-effects/doeff_core_effects/scheduler.py:777-1486 | every state of every run satisfies one invariant over heap, waiters, joins, cells, semaphores, identifiers and handles |
| SchedulerTheorems.ContinuationsAreLinear | packages/doeff-core-effects/doeff_core_effects/scheduler.py:777-898 | an owner's continuation is in at most one of heap, waiters, unresolved joins and semaphore queues, in none while it executes, and a live owner that does not execute is in one |
| SchedulerTheorems.ListsHoldOwnersOnce | packages/doeff-core-effects/doeff_core_effects/scheduler.py:1239-1252 | no waiter list and no semaphore queue holds an owner's continuation twice |
| SchedulerTheorems.KeptContinuationsAreUnspent | packages/doeff-core-effects/doeff_core_effects/scheduler.py:1046-1085 | a kept continuation has not been resumed, and no two owners or places share one |
| SchedulerTheorems.NoContinuationIsResumedTwice | packages/doeff-core-effects/doeff_core_effects/scheduler.py:799-831 | what any step of a run resumes had not been resumed before |
| SchedulerTheorems.HeapOrdersAreDistinct | packages/doeff-core-effects/doeff_core_effects/scheduler.py:463-467 | all order numbers in the heap, and among entries held out of it, stay distinct |
| SchedulerTheorems.NeverRunsDry | packages/doeff-core-effects/doeff_core_effects/scheduler.py:888-890 | the exit of pick_next that returns None is unreachable: the root is never lost |
| SchedulerTheorems.BlockingIsJustified | packages/doeff-core-effects/doeff_core_effects/scheduler.py:846-876 | where pick_next blocks, no live non-daemon entry is in the heap and a live owner waits for a pending external promise |
| SchedulerTheorems.HopelessWaitRaises | packages/doeff-core-effects/doeff_core_effects/scheduler.py:877-885 | with an empty heap and nobody waiting for a pending external promise the scheduler raises SchedulerDeadlockError |
| ExternalDeadlock.HopelessWaitNeverEnds | packages/doeff-core-effects/doeff_core_effects/scheduler.py:877-885 | that error is justified: with the check switched off, whatever foreign threads complete, no continuation would ever run again |
| RaisedDeadlock.RaisesIff | packages/doeff-core-effects/doeff_core_effects/scheduler.py:846-893 | in every run a turn of pick_next raises SchedulerDeadlockError if and only if the heap is empty and nobody waits for a completion from outside, or only such a completion can make anything run and some nonempty set of semaphores with waiters is held by nobody but waiters of that set |
| RaisedDeadlock.NothingElseRaises | packages/doeff-core-effects/doeff_core_effects/scheduler.py:751-762 | no run comes to raise it in any other way or case |
| SchedulerTheorems.WaitersWaitForPendingThings | packages/doeff-core-effects/doeff_core_effects/scheduler.py:1046-1094 | no lost wakeup: every key with waiters is known and not terminal |
| SchedulerTheorems.GathersAreCounted | packages/doeff-core-effects/doeff_core_effects/scheduler.py:953-1004 | an unresolved gather's remaining equals its pending positions and its registrations, duplicates included; a resolved one has no registration left |
| SchedulerTheorems.PlaceholdersArePaired | packages/doeff-core-effects/doeff_core_effects/scheduler.py:834-848 | every unclaimed placeholder has exactly one registration with its cell, its owner's, on a pending external promise |
| SchedulerShields.WaitsAreShielded | packages/doeff-core-effects/doeff_core_effects/scheduler.py:930-951 | while a run has not ended, every registration of a gather or race on an external promise has a cell, and every registration with a cell has its placeholder, unclaimed and at the external-wait priority, in the heap or held out of it, unless its owner is cancelled |
| SchedulerShields.WaitsRegister | packages/doeff-core-effects/doeff_core_effects/scheduler.py:1200-1256 | a Wait that suspends is registered with its wake priority, and with a placeholder exactly if the promise is external and it did not ask to be parked idle |
| SchedulerTheorems.LiveHandlesAreKnown | packages/doeff-core-effects/doeff_core_effects/scheduler.py:445-461 | whatever the collector did, an effect through live handles never meets a swept entry |
| SchedulerTheorems.NothingNeededIsSwept | packages/doeff-core-effects/doeff_core_effects/scheduler.py:387-428 | entries of parked and executing owners and keys of unresolved gathers and races are never swept |
| SchedulerCreation.SweepsTheStale | packages/doeff-core-effects/doeff_core_effects/scheduler.py:387-435 | an effect that is handed an identifier before a multiple of 1024 removes exactly the entries that completed or failed, have no live handle and no waiter, and are in no gather or race with one; no other effect removes any |
| SchedulerCreation.SpawnLeaves | packages/doeff-core-effects/doeff_core_effects/scheduler.py:1150-1174 | in any run a spawned task is a new pending entry of the priority and daemon flag asked for, queued at that priority, and its spawner is queued behind all else at its own, with the handle |
| SchedulerCreation.CreateLeaves | packages/doeff-core-effects/doeff_core_effects/scheduler.py:1337-1343 | a new promise, external if asked, is pending, and its creator goes on with its handle |
| SchedulerCreation.SemaphoreLeaves | packages/doeff-core-effects/doeff_core_effects/scheduler.py:1436-1452 | a new semaphore has all its permits free, no waiter and no holder; fewer than one permit are refused |
| SchedulerResults.ResultsAreWrittenOnce | packages/doeff-core-effects/doeff_core_effects/scheduler.py:1176-1198 | a terminal status and its result never change afterwards |
| SchedulerOutcomes.TasksEnd | packages/doeff-core-effects/doeff_core_effects/scheduler.py:1176-1198 | in any run a task that returns is recorded as completed with its value and one that raises as failed with its error, and everybody waiting for just it is queued with that value or error; a cancelled task's entry stands |
| SchedulerOutcomes.PromisesEnd | packages/doeff-core-effects/doeff_core_effects/scheduler.py:1345-1412 | CompletePromise and FailPromise end a pending promise so, refuse a resolved or external one, and then change nothing |
| SchedulerOutcomes.CompletionsDecide | packages/doeff-core-effects/doeff_core_effects/scheduler.py:593-619 | of the completions queued for a pending promise the first decides how it ends; draining changes the entry of nothing that is not a pending promise |
| SchedulerOutcomes.CancelsEnd | packages/doeff-core-effects/doeff_core_effects/scheduler.py:1326-1335 | Cancel goes on at once; a task started or not ends as cancelled, whoever waits for just it is queued with TaskCancelledError, and a task that has ended stays as it is |
| SchedulerOutcomes.CancelledNeverRun | packages/doeff-core-effects/doeff_core_effects/scheduler.py:799-831 | however a run goes on, a task cancelled while it does not execute never executes again |
| SchedulerResults.DirectIsDelivered | packages/doeff-core-effects/doeff_core_effects/scheduler.py:916-928 | a direct waiter of a terminal waitable is queued with that waitable's value or error at its wake priority |
| SchedulerResults.JoinsAreAnswered | packages/doeff-core-effects/doeff_core_effects/scheduler.py:983-1044 | a key that becomes terminal resolves an unresolved gather or race exactly when it should, with the first failure, the winner, or all results |
| SchedulerResults.ResultsInOrder | packages/doeff-core-effects/doeff_core_effects/scheduler.py:1000-1003 | a gather's results are those of its keys in argument order |
| SchedulerReplies.GatherReplies | packages/doeff-core-effects/doeff_core_effects/scheduler.py:1258-1288 | in any run a Gather is answered at once, with all results in argument order, if and only if all its waitables have completed; it raises at once if and only if one failed or was cancelled, with the error of the first such |
| SchedulerReplies.RaceReplies | packages/doeff-core-effects/doeff_core_effects/scheduler.py:1290-1324 | a Race is answered at once with the outcome of the first argument that has ended, suspends if and only if there are arguments and none has, and refuses none |
| SchedulerReplies.WaitReplies | packages/doeff-core-effects/doeff_core_effects/scheduler.py:1200-1256 | a Wait is answered at once with the outcome of its waitable if and only if that has ended |
| SchedulerJoins.JoinsResolveOnce | packages/doeff-core-effects/doeff_core_effects/scheduler.py:953-1044 | however a run goes on, a gather or race keeps its owner and keys, is resolved at most once, and then never changes or has a registration again |
| SchedulerDelivery.WaitsAreAnswered | packages/doeff-core-effects/doeff_core_effects/scheduler.py:1200-1256 | however a run goes on, whoever suspended in a Wait is still registered while the waitable is pending; otherwise it is queued, at the priority asked for, with the waitable's final value, error or cancellation, or has been resumed with just that, or is cancelled |
| SchedulerDelivery.RegistrationsAreAnswered | packages/doeff-core-effects/doeff_core_effects/scheduler.py:1046-1085 | the same for every direct registration found at any point of a run; and the outcome it was sent is the one the waitable keeps |
| SchedulerAnswers.OpenJoinsAreAnswered | packages/doeff-core-effects/doeff_core_effects/scheduler.py:953-1044 | however a run goes on, an unresolved gather or race stays unresolved or its owner is queued with the final outcome of a key that failed, was cancelled or won, or with all results in order, and stays so until it is resumed with that or is cancelled |
| SchedulerReplies.JoinsAreAnsweredLater | packages/doeff-core-effects/doeff_core_effects/scheduler.py:1258-1324 | whoever suspends in a Gather or Race opens one over just the keys it asked for, and is answered, when that is resolved, as OpenJoinsAreAnswered says |
| SchedulerResolving.CompleterRunsLast | packages/doeff-core-effects/doeff_core_effects/scheduler.py:1366-1385 | everything a promise resolution queued precedes the completer's own entry, which is demoted no further than needed |
| SchedulerConservation.PermitsAreCounted | packages/doeff-core-effects/doeff_core_effects/scheduler.py:1454-1483 | in every state of every run free plus held permits are max_permits and one for each stray release so far |
| SchedulerConservation.PermitsAreConservedIff | packages/doeff-core-effects/doeff_core_effects/scheduler.py:1467-1483 | free plus held permits equal max_permits if and only if only holders made the releases that the semaphore accepted |
| SchedulerConservation.HoldersMayRelease | packages/doeff-core-effects/doeff_core_effects/scheduler.py:1467-1483 | as long as only holders released, a holder's release is never refused |
| SchedulerConservation.ReleaseExcess | packages/doeff-core-effects/doeff_core_effects/scheduler.py:1467-1483 | in any state at all, a release leaves the permit count as it is if the semaphore does not accept it or a holder makes it, and adds one otherwise |
| SchedulerConservation.RefusedIffNotAccepted | packages/doeff-core-effects/doeff_core_effects/scheduler.py:1467-1483 | a release is refused exactly when nobody live waits and all permits are free; who makes it does not matter |
| StrayRelease.PermitsAreMinted | packages/doeff-core-effects/doeff_core_effects/scheduler.py:1121-1132 | a run of fourteen actions from the empty scheduler after which a semaphore of one permit has two free ones |
| SchedulerConservation.PermitsInFlight | packages/doeff-core-effects/doeff_core_effects/scheduler.py:820-828 | a permit in flight is counted as held by its receiver, and a semaphore with a free permit has no waiter |
| SchedulerSemaphores.AcquireReplies | packages/doeff-core-effects/doeff_core_effects/scheduler.py:1454-1465 | in any run, for any number of permits: a free permit is taken at once and its performer counted as a holder, and with none free the performer waits behind everybody else |
| SchedulerSemaphores.ReleaseReplies | packages/doeff-core-effects/doeff_core_effects/scheduler.py:1467-1483 | a release goes on at once: the permit travels to the first waiter not cancelled, queued at its priority, or becomes free if there is none, or is refused if all are free; nothing else changes |
| SchedulerFairness.GrantsAreFifo | packages/doeff-core-effects/doeff_core_effects/scheduler.py:1096-1119 | however a run goes on, of two waiters of a semaphore the first stays ahead while both wait, and the second does not leave uncancelled before the first has left or is cancelled |
| SchedulerFairness.WaitersAreGranted | packages/doeff-core-effects/doeff_core_effects/scheduler.py:1104-1119 | whoever leaves a semaphore's queue is cancelled or granted a permit, which stays queued for it until it is resumed with it |
| SchedulerHolders.HolderStays | packages/doeff-core-effects/doeff_core_effects/scheduler.py:1454-1483 | the permit of a semaphore of one stays with its holder, and out of flight, through every step of a run but a release of it |
| SchedulerHolders.AcquiringLocks | packages/doeff-core-effects/doeff_core_effects/scheduler.py:1454-1465 | an acquisition of such a semaphore is answered at once exactly if nobody has the permit, and then the performer is the only holder; otherwise it is queued |
| SchedulerHolders.CreatingGoesOn | packages/doeff-core-effects/doeff_core_effects/scheduler.py:1436-1452 | CreateSemaphore(1) never reschedules: its performer goes on with a semaphore nobody had before |
| SchedulerHolders.ReleasingGoesOn | packages/doeff-core-effects/doeff_core_effects/scheduler.py:1467-1483 | a holder's release never reschedules, is not refused, and leaves the permit to nobody that runs yet |
| SchedulerHolders.ChosenHolds | packages/doeff-core-effects/doeff_core_effects/scheduler.py:811-831 | whoever is dispatched out of such a semaphore's queue is its only holder |
| DeadlockDetector.VerdictIsSelfSupporting | packages/doeff-core-effects/doeff_core_effects/scheduler.py:713-749 | every semaphore of the verdict has holders, all parked behind the verdict |
| DeadlockDetector.VerdictIsGreatest | packages/doeff-core-effects/doeff_core_effects/scheduler.py:713-749 | the verdict contains every self-supporting set of blocked semaphores |
| DeadlockDetector.FindUnreleasable | packages/doeff-core-effects/doeff_core_effects/scheduler.py:732-749 | the pruning loop terminates with that greatest fixpoint |
| DeadlockDetector.VerdictIsSound | packages/doeff-core-effects/doeff_core_effects/scheduler.py:692-762 | however the run goes on under holder discipline, no permit of the verdict is granted or freed again and nobody parked behind it executes again |
| PickOrder.TurnsProgress | packages/doeff-core-effects/doeff_core_effects/scheduler.py:777-898 | each turn of pick_next but the last empties the queue, removes an entry of a cancelled owner, or shrinks the heap, so it ends between blocking waits |
| PickOrder.PicksTheFirstEligible | packages/doeff-core-effects/doeff_core_effects/scheduler.py:777-898 | whatever the heap holds: permits lost to cancelled owners are returned in heap order as long as nothing may run before them, then the first live entry is picked, those granted on the way included and daemons behind a standing placeholder excluded, and the heap stays as it is then but for that entry and the inert ones ahead of it |
| PickOrder.PicksByPriority | packages/doeff-core-effects/doeff_core_effects/scheduler.py:786-831 | with nothing queued or arriving, what is picked, once lost permits are back, has the highest priority of all that is live and no daemon's, the first queued of equals; a daemon's entry is picked only ahead of all standing placeholders |
| PickOrder.PicksNothingElse | packages/doeff-core-effects/doeff_core_effects/scheduler.py:834-893 | with nothing eligible once those permits are returned it picks nothing |
| PickOrder.PicksIffEligible | packages/doeff-core-effects/doeff_core_effects/scheduler.py:786-893 | with nothing queued or arriving it picks something if and only if something is eligible once those permits are returned |
| StarvedWaiter.PicksWithoutDaemonsIff | packages/doeff-core-effects/doeff_core_effects/scheduler.py:820-861 | where nobody is a daemon it picks something if and only if something live is in the heap, or a permit lost to a cancelled owner is waited for and no standing placeholder comes before it |
| StarvedWaiter.AWaiterStarves | packages/doeff-core-effects/doeff_core_effects/scheduler.py:846-876 | a run from the empty scheduler, without daemons, in which pick_next blocks although a task waits for a lost permit |
| PickOrder.PickRunDispatches | packages/doeff-core-effects/doeff_core_effects/scheduler.py:786-893 | a whole call of pick_next is a sequence of dispatch steps of a run, with arrivals in between |
| HandlePruning.PruningIsAmortised | packages/doeff-core-effects/doeff_core_effects/scheduler.py:380-385 | a key's reference list stays within max(8, twice the live ones at its last prune), and its prunes look at no more than two references per registration |
| HandlePruning.TotalIsAmortised | packages/doeff-core-effects/doeff_core_effects/scheduler.py:380-385 | all prunes of all keys look at no more than two references per registration |
| SchedulerObject.Scheduler.constructor | packages/doeff-core-effects/doeff_core_effects/scheduler.py:354-364 | a new scheduler is empty |
| SchedulerObject.Scheduler.EnqueueEntry | packages/doeff-core-effects/doeff_core_effects/scheduler.py:463-467 | the heap gains the entry with the next order number |
| SchedulerObject.Scheduler.RegisterHandle | packages/doeff-core-effects/doeff_core_effects/scheduler.py:366-385 | the handle joins the key's references, pruned first if they reached the limit |
| SchedulerObject.Scheduler.SweepTerminalUnobserved | packages/doeff-core-effects/doeff_core_effects/scheduler.py:387-428 | exactly the completed or failed entries with no waiter, no protection and only dead handles are deleted |
| SchedulerObject.Scheduler.MakeId | packages/doeff-core-effects/doeff_core_effects/scheduler.py:430-435 | the old counter, with a sweep at every 1024th |
| SchedulerObject.Scheduler.HasLiveReadyEntry | packages/doeff-core-effects/doeff_core_effects/scheduler.py:469-491 | whether a live entry, daemons counted or not, is in the heap |
| SchedulerObject.Scheduler.LiveSemaphoreWaiters | packages/doeff-core-effects/doeff_core_effects/scheduler.py:692-711 | cancelled waiters leave all queues; the semaphores that still have one are returned |
| SchedulerObject.Scheduler.HasPendingExternalWaiters | packages/doeff-core-effects/doeff_core_effects/scheduler.py:764-775 | whether a live owner waits for a pending external promise |
| SchedulerObject.Scheduler.RegisterPendingWaiter | packages/doeff-core-effects/doeff_core_effects/scheduler.py:930-951 | one registration, with a placeholder and a shared cell for an external promise |
| SchedulerObject.Scheduler.RemoveJoinWaiters | packages/doeff-core-effects/doeff_core_effects/scheduler.py:953-972 | the loops drop exactly the join's registrations, claim their cells, and drop lists that become empty |
| SchedulerObject.Scheduler.WakeJoinWaiter | packages/doeff-core-effects/doeff_core_effects/scheduler.py:974-1044 | counting, early and final resolution of gathers and races |
| SchedulerObject.Scheduler.WakeWaiters | packages/doeff-core-effects/doeff_core_effects/scheduler.py:1046-1085 | the loop wakes all waiters of a key in order and returns the least priority used |
| SchedulerObject.Scheduler.DrainOneExternal | packages/doeff-core-effects/doeff_core_effects/scheduler.py:616-619 | one completion resolves its promise if that is still pending |
| SchedulerObject.Scheduler.DrainAll | packages/doeff-core-effects/doeff_core_effects/scheduler.py:1087-1094 | all queued completions are processed in order |
| SchedulerObject.Scheduler.PopLiveSemaphoreWaiter | packages/doeff-core-effects/doeff_core_effects/scheduler.py:1096-1102 | the first live waiter leaves the queue with the cancelled ones ahead of it |
| SchedulerObject.Scheduler.GrantPermitToNextWaiter | packages/doeff-core-effects/doeff_core_effects/scheduler.py:1104-1119 | a permit travels to the first live waiter, who is counted as holder |
| SchedulerObject.Scheduler.ReturnInflightPermit | packages/doeff-core-effects/doeff_core_effects/scheduler.py:1121-1132 | the permit of a cancelled receiver goes to the next waiter or back to the semaphore |
| SchedulerObject.Scheduler.PerformSpawn | packages/doeff-core-effects/doeff_core_effects/scheduler.py:1150-1174 | a new task is queued at its priority, the spawner behind it at its own |
| SchedulerObject.Scheduler.PerformCompleted | packages/doeff-core-effects/doeff_core_effects/scheduler.py:1176-1198 | the result of a task that was not cancelled is recorded and its waiters are woken |
| SchedulerObject.Scheduler.PerformWait | packages/doeff-core-effects/doeff_core_effects/scheduler.py:1200-1256 | an immediate answer, or a registration of the kind the waitable and priority ask for |
| SchedulerObject.Scheduler.PerformGather | packages/doeff-core-effects/doeff_core_effects/scheduler.py:1258-1288 | the first failure, all results, or a gather over the pending keys |
| SchedulerObject.Scheduler.PerformRace | packages/doeff-core-effects/doeff_core_effects/scheduler.py:1290-1324 | the first terminal key's outcome, or a race over all keys |
| SchedulerObject.Scheduler.PerformCancel | packages/doeff-core-effects/doeff_core_effects/scheduler.py:1326-1335 | an unfinished task becomes cancelled and its waiters are woken |
| SchedulerObject.Scheduler.PerformCreate | packages/doeff-core-effects/doeff_core_effects/scheduler.py:1337-1343 | a fresh pending promise with a registered handle |
| SchedulerObject.Scheduler.PerformSettle | packages/doeff-core-effects/doeff_core_effects/scheduler.py:1345-1412 | the refusals, or resolution with the completer queued at the lesser of its own and the least wake priority |
| SchedulerObject.Scheduler.PerformSemaphore | packages/doeff-core-effects/doeff_core_effects/scheduler.py:1436-1452 | a fresh semaphore, or refusal of fewer than one permit |
| SchedulerObject.Scheduler.PerformAcquire | packages/doeff-core-effects/doeff_core_effects/scheduler.py:1454-1465 | a free permit is taken, or the performer is queued |
| SchedulerObject.Scheduler.PerformRelease | packages/doeff-core-effects/doeff_core_effects/scheduler.py:1467-1483 | the permit is transferred or banked, or the release refused |
| SchedulerObject.Scheduler.HandleEffect | packages/doeff-core-effects/doeff_core_effects/scheduler.py:1148-1486 | draining and then the branch of the effect, as runs perform it |
| SchedulerObject.Scheduler.TakeFirst | packages/doeff-core-effects/doeff_core_effects/scheduler.py:789-876 | the inner loop's body is one turn |
| SchedulerObject.Scheduler.BlockOn | packages/doeff-core-effects/doeff_core_effects/scheduler.py:862-876 | the deadlock check, the blocking wait and the requeueing of a placeholder |
| SchedulerObject.Scheduler.WaitWithEmptyHeap | packages/doeff-core-effects/doeff_core_effects/scheduler.py:877-893 | the bottom of the outer loop |
| SchedulerObject.Scheduler.PickNext | packages/doeff-core-effects/doeff_core_effects/scheduler.py:777-898 | the nested loops terminate and end as the turns of a run do, held entries restored |
| LazyAsk.CachingPreservesMeaning | packages/doeff-core-effects/doeff_core_effects/handlers.py:551-668 | in any environment and nesting of Local scopes, a handled run that does not lock itself out ends as evaluation without caches does |
| LazyAsk.CachingIsExactWithoutReentry | packages/doeff-core-effects/doeff_core_effects/handlers.py:551-668 | a program whose evaluation afresh never asks for a key inside that key's own evaluation ends, handled, exactly if it ends afresh, and alike |
| LazyAsk.CachingIsExactWhenAcyclic | packages/doeff-core-effects/doeff_core_effects/handlers.py:551-668 | so does every program in an acyclic environment |
| LazyAsk.AskIsFresh | packages/doeff-core-effects/doeff_core_effects/handlers.py:577-646 | an answer to Ask is the value of evaluating the entry afresh in the effective environment, and both caches stay correct |
| LazyHits.AnsweredOnce | packages/doeff-core-effects/doeff_core_effects/handlers.py:556-597 | once an Ask of a scope is answered with a value other than None, every later one in that scope is, from the caches alone, whatever the scope runs in between |
| LazyHits.AnsweredForInnerScopes | packages/doeff-core-effects/doeff_core_effects/handlers.py:566-573 | a value whose evaluation afresh reads nothing that is overridden, in its scope or one inside it, answers Asks of that inner scope from the caches, too |
| LazyHits.UnknownEvaluates | packages/doeff-core-effects/doeff_core_effects/handlers.py:599-646 | an Ask for which no value other than None is kept ends as its own evaluation does, or waits for ever if it is part of that |
| LazyAsk.ReadsDecide | packages/doeff-core-effects/doeff_core_effects/handlers.py:556-573 | an evaluation goes the same way in any environment that agrees on the keys it read |
| LazyAsk.RunNeverLocksOut | packages/doeff-core-effects/doeff_core_effects/handlers.py:600-613 | without such re-entry no semaphore is waited for by its own holder, from any good caches and with any semaphores held that are not asked for |
| LazyAsk.LockedOutIffSomethingAsksForItself | packages/doeff-core-effects/doeff_core_effects/handlers.py:599-613 | in any environment: some ask locks itself out although evaluating it afresh ends, if and only if some such evaluation asks for its own key |
| LazyAsk.AskingBeforeHidesReentry | packages/doeff-core-effects/doeff_core_effects/handlers.py:590-597 | the order of asks decides: after a first ask that caches the re-entrant key, a program that locks itself out alone ends |
| LazyAsk.ReentrantAskLocksItselfOut | packages/doeff-core-effects/doeff_core_effects/handlers.py:600-605 | a handled run locks itself out although the fresh one ends |
| LazyAsk.Handler.CacheLookup | packages/doeff-core-effects/doeff_core_effects/handlers.py:556-564 | the scope cache first, then a shared entry whose deps no override touches; None is no hit |
| LazyAsk.Handler.CacheStore | packages/doeff-core-effects/doeff_core_effects/handlers.py:566-573 | an entry goes to the scope cache if an override touches its deps, else to the shared one |
| LazyAsk.Handler.EvaluateLazy | packages/doeff-core-effects/doeff_core_effects/handlers.py:620-637 | evaluation under the semaphore and a new set of eval_stack, whose keys are the deps |
| LazyAsk.Handler.HandleAsk | packages/doeff-core-effects/doeff_core_effects/handlers.py:577-646 | the Ask branch does to caches, semaphores and eval_stack what the theorems assume |
| LazyAsk.Handler.Run | packages/doeff-core-effects/doeff_core_effects/handlers.py:648-670 | so does a whole program, Local scopes with handlers of their own included |
| LazyOnce.EvaluatedAtMostOnce | packages/doeff-core-effects/doeff_core_effects/handlers.py:599-646 | in every run of the scheduler with tasks that ask, are spawned, cancelled and dispatched as they like, outside Local scopes, a key is evaluated to a value other than None at most once |
| LazyOnce.EvaluatedByOneTask | packages/doeff-core-effects/doeff_core_effects/handlers.py:605-613 | a key is being evaluated by at most one task, the only holder of its semaphore, and not once it has a value |
| LazyOnce.OneSemaphorePerKey | packages/doeff-core-effects/doeff_core_effects/handlers.py:599-603 | a key's semaphore, once stored, is never replaced, has one permit, and is no other key's |
| LazyOnce.HandlerGoesOn | packages/doeff-core-effects/doeff_core_effects/handlers.py:599-646 | between two effects the handler can always go on, and nobody else runs unless it has to wait for the permit |
| LazyAnswers.AskGoesOnIff | packages/doeff-core-effects/doeff_core_effects/handlers.py:590-597 | in any run an Ask goes on at once, with the cached value, if and only if there is one other than None, and never touches the scheduler by itself |
| LazyAnswers.AskLeadsOn | packages/doeff-core-effects/doeff_core_effects/handlers.py:599-646 | otherwise the handler's own steps can lead the asking task into the program of the key, or into waiting for a permit that is not free |
| LazyAnswers.WaitersGoOn | packages/doeff-core-effects/doeff_core_effects/handlers.py:605-619 | however a run goes on, whoever waited for the permit still does, is cancelled, or got the permit and looked into the cache again |
| LazyAnswers.TurnsLeadOn | packages/doeff-core-effects/doeff_core_effects/handlers.py:605-646 | whoever got it goes on at once with the value kept by then, after giving the permit back, or starts the program |
| LazyAnswers.EndsAreAnswered | packages/doeff-core-effects/doeff_core_effects/handlers.py:620-646 | when the program of a key ends, the handler can at once answer the Ask it was started for with its value, which is kept then, or its error |
| LazyAnswers.AnswersAreRight | packages/doeff-core-effects/doeff_core_effects/handlers.py:577-646 | every answer to an Ask in a run is the value kept for its key, or what the asking task's own evaluation of that key ended with |
| LazyAnswers.NoneIsAskedAgain | packages/doeff-core-effects/doeff_core_effects/handlers.py:556-564 | a None result answers its Ask, but the next Ask for that key evaluates it again |
| LazyOnce.ValuesAreFinal | packages/doeff-core-effects/doeff_core_effects/handlers.py:636-646 | a cached value other than None never changes |
| Deps.QueryReturns | packages/doeff-indexer/src/deps.rs:850-883 | exactly what a query returns, for any call graph and any memo it starts from |
| Deps.FirstQueryIsExact | packages/doeff-indexer/src/deps.rs:850-883 | the first query returns exactly the effects of reachable functions, cycles or not |
| Deps.ExactFromExactMemo | packages/doeff-indexer/src/deps.rs:857-859 | so does any query that meets only exact entries |
| Deps.ExactIffNoMutualRecursion | packages/doeff-indexer/src/deps.rs:755-783 | for a call graph: every query, for all direct effects and after any queries, is exact if and only if no two different functions reach each other |
| Deps.QueriesAreExact | packages/doeff-indexer/src/deps.rs:755-783 | without mutual recursion every query is exact, in any order with a shared memo; a function may call itself |
| Deps.QueriesAreSound | packages/doeff-indexer/src/deps.rs:850-883 | on any graph, after any queries, only effects of reachable functions are returned |
| Deps.LaterQueriesCanBePartial | packages/doeff-indexer/src/deps.rs:871-875 | on a cycle of two functions the second query misses an effect |
| Deps.GatherAllEffects | packages/doeff-indexer/src/deps.rs:850-883 | the recursive search on a shared memo and stack computes that result and leaves the stack as it was |
| Deps.AnalyzeAll | packages/doeff-indexer/src/deps.rs:755-783 | the loop over all functions, with two memos and one stack, is sound, and exact without mutual recursion |
| HyReader.PrintThenRead | packages/doeff-effect-analyzer/src/hy_reader.rs:174-373 | reading the canonical printing of a well-formed tree gives the tree up to spans |
| HyReader.ReadThenPrintThenRead | packages/doeff-effect-analyzer/src/hy_reader.rs:174-373 | whatever is read is well-formed, and printing and reading it again changes only spans |
| HyReader.PrintThenParse | packages/doeff-effect-analyzer/src/hy_reader.rs:104-115 | the same for whole sources |
| HyGrammar.ReadsIffSpelled | packages/doeff-effect-analyzer/src/hy_reader.rs:174-373 | from any place of any source exactly that tree is read, spans and all, which the grammar finds there behind whitespace and comments |
| HyGrammar.ParsesIffSpelled | packages/doeff-effect-analyzer/src/hy_reader.rs:104-115 | a source parses to a list of trees if and only if the grammar finds just these in it, and fails if and only if the grammar finds none |
| HyGrammar.ErrorsAreRight | packages/doeff-effect-analyzer/src/hy_reader.rs:245-353 | each error says what is wrong and where: an opener behind which complete forms run to the end, a quote behind which a literal does, a literal that breaks off in an escape, the end, or a character that begins nothing |
| HyComments.CommentEnds | packages/doeff-effect-analyzer/src/hy_reader.rs:151-172 | a comment ends behind the first newline, or with the source if there is none |
| HyComments.CommentThenParse | packages/doeff-effect-analyzer/src/hy_reader.rs:104-115 | any source behind a comment parses as it does alone, up to spans, or to the same error further on |
| HyComments.CommentsCountForNothing | packages/doeff-effect-analyzer/src/hy_reader.rs:151-172 | at any place between expressions or items, reading goes on as if behind the comment |
| HyComments.CommentBetweenItems | packages/doeff-effect-analyzer/src/hy_reader.rs:245-273 | a bracketed form with a comment between any of its items has just those items |
| HyComments.ReadMoves | packages/doeff-effect-analyzer/src/hy_reader.rs:174-243 | what is read does not depend on what stands before it, but for offsets |
| HyReader.ReadSpansNest | packages/doeff-effect-analyzer/src/hy_reader.rs:174-243 | spans of a successful read nest: children are inside, in order and disjoint |
| HyReader.ParsedSpansLineUp | packages/doeff-effect-analyzer/src/hy_reader.rs:104-115 | top-level expressions follow one another |
| HyReader.ParsedByteSpans | packages/doeff-effect-analyzer/src/hy_reader.rs:104-115 | counted in bytes of UTF-8, as the source does, spans nest and follow one another up to the length of the source, too |
| HyBytes.ByteSpansSlice | packages/doeff-effect-analyzer/src/hy_reader.rs:141-149 | between two byte offsets stands the UTF-8 encoding of what stands between the two characters |
| HyReader.ReadExpr | packages/doeff-effect-analyzer/src/hy_reader.rs:174-243 | reading terminates, and a successful read advances strictly |
| HyReader.StringReads | packages/doeff-effect-analyzer/src/hy_reader.rs:275-311 | an escaped string reads back as itself |
| HyReader.Reader.SkipWhitespaceAndComments | packages/doeff-effect-analyzer/src/hy_reader.rs:151-172 | the nested loops stop at the next character that is neither blank nor in a comment |
| HyReader.Reader.ReadStringAt | packages/doeff-effect-analyzer/src/hy_reader.rs:275-311 | the loop over a string literal and its escapes |
| HyReader.Reader.ReadDelimited | packages/doeff-effect-analyzer/src/hy_reader.rs:245-273 | the loop over the items of a bracketed form, with its two errors |
| HyReader.Reader.ReadNext | packages/doeff-effect-analyzer/src/hy_reader.rs:174-243 | the reader with a position does what the grammar says, errors included |
| HyReader.ParseHy | packages/doeff-effect-analyzer/src/hy_reader.rs:104-115 | the top-level loop |

## Left out

- ExternalDeadlock.HopelessWaitNeverEnds: assumes that foreign threads complete external promises only, as `ExternalPromise` objects are all they hold.
- DeadlockDetector.VerdictIsSound: assumes holder discipline from the verdict on, as the source's own comment does; a stray release can free a semaphore of the verdict.
- SchedulerObject.Scheduler.PickNext: completions that arrive while it does not block are delivered before or after the call; in runs they arrive between any two turns.
- SchedulerObject.Scheduler.WakeJoinWaiter: gather and race states and `claimed` cells are numbered entries of maps, not shared Python dicts and lists; aliasing between them is not modelled.
- SchedulerObject.Scheduler.HandleEffect: `_SchedulerIntrospection`, effects of other handlers (`Pass`), and ill-typed arguments.
- SchedulerObject.Scheduler.PerformSpawn: boundary stacks, spawn sites and the program itself; a task is its identifier.
- LazyAsk.CachingPreservesMeaning: overrides are plain values, programs do not catch errors, one task evaluates at a time, and a key missing from the environment is an error (`strict`).
- LazyAsk.Handler.HandleAsk: leaves out the second cache lookup after acquiring, which has no effect in a run of one task; `LazyOnce`, where other tasks run in between, has it.
- LazyAsk.Handler.Run: takes a bound on steps, because programs need not terminate; the theorems hold for every bound.
- LazyOnce.EvaluatedAtMostOnce: asks are outside `Local` scopes, so `scope_cache` and deps do not occur; what an evaluation does is any effects of the scheduler and further asks, and its result is arbitrary.
- HyReader.ReadExpr: offsets count characters, where the source counts bytes of UTF-8; `InBytes` converts them, and `ParsedByteSpans` and `HyBytes` are about the result.
- Deps.AnalyzeAll: the syntax-tree side that collects direct effects and calls, aliases, and the sorted output.
- The KeyboardInterrupt and SystemExit path of `wrap_task`, root close-out warnings, stall logging and the text of deadlock errors.
- Foreign threads and the await bridge: only the completions they append remain.
- The Rust VM, `Transfer`, `TailEval` and `Resume`: a continuation is an opaque one-shot identifier.
- `env_var_ask`, memo and cache handlers, storage, the indexer and the command line.
