# Verified models of the VPN client's stateful core

This project models nine stateful components of the desktop and mobile VPN client and proves what
they promise over whole runs: the iOS operation scheduler, operations with results, the
cross-process file cache, the access token store, the access method selector, the availability flags
of the API client, the list of recent connections, the log output stream, and IP address ranges.
`dafny verify dfyconfig.toml` checks all of it.

Most components come in the same three layers. A value-level state has one function per critical
section or system call of the code. A run is any interleaving of these steps, including
cancellations, failures, crashes, aborted tasks and lagging receivers, and the theorems quantify
over every run. Where the code changes fields in place, a class with those fields has one method per
method of the code, and each method is proved to make exactly the change its step function
describes, so that the theorems about runs apply to the object.

## What is proved

**Operation scheduler** (`OperationLifecycle`, `OperationScheduler`, `OperationExclusivity`,
`OperationFailure`, `OperationHistory`, `OperationCauses`, `OperationDependencies`,
`OperationProgress`, `AsyncOperation`, `AsyncOperationQueue`). For any number of operations in any
sets of categories, at most one operation per category executes, operations of a category start in
enqueue order, and an operation is listed by the exclusivity manager exactly from its enqueueing
until its finish block has run. A body runs only if the operation was not cancelled before its start
and every condition said yes; what a condition said about a dependency stays true, so a failure
anywhere below an operation along careful dependencies keeps it from running. Conversely, an
operation that did not run was asked to cancel or had a condition with a reason to refuse. A request
to cancel keeps a body that has not started from ever starting, and one that interrupts a body is
told to every observer. Observers are told each event at most once, in order, with the first
finish's error. If explicit dependencies point to operations enqueued earlier there is no cycle, and
from every such state all enqueued operations can be brought to their end.

Exclusion depends on when the base class calls an operation ready. A comment at
ios/Operations/AsyncOperation.swift:122 expects readiness to mean that all dependencies are
finished. Foundation documents that a cancelled operation ignores its dependencies. The rule is a
parameter of the model: under the first rule exclusion holds in every run, under the second
`OvertakingRun` is a run in which two operations of one category execute together, because the third
operation depends only on the cancelled second one. Under the second rule exclusion still holds in
every run that never has a cancelled, unstarted operation with a category waiting for an unfinished
dependency.

**Operations with results** (`ResultOperation`). The first result given decides; the handler last
assigned before it is called exactly once with that result before the operation becomes finished;
nothing later changes either.

**File cache** (`FileCacheProtocol`, `FileCacheConsistency`, `FileCacheProgress`, `FileCacheUse`,
`FileCache`). With any number of threads and processes, each of which may die between any two system
calls, every call that returns took effect at some instant between its call and its return, and a
write or clear did so by its own step. The visible file is always absent, the file found at the
start, or exactly what some call was asked to write. A leftover temporary file never changes
anything that follows. Every call under way can be brought to its end, a write to its success. A
read of a file that the instance remembers goes without the lock. Seen one call at a time, the fast
path answers exactly as a plain locked read would.

**Access token store** (`AccessTokens`, `AccessTokenTheorems`, `AccessTokenActor`). Every request is
in exactly one place, answered once, waiting under its own account, still in the inbox, or dropped
by an invalidation, and nobody waits without a fetch that is running or whose completion is queued.
A request is answered from memory exactly if the token held expires later. A fetch that is aborted
by an invalidation may already have queued its completion (mullvad-api/src/access.rs:97-100,
116-119). Freshness after an invalidation is therefore not unconditional: it holds in every run
without such a step. The condition is exact. In every reachable state, after an invalidation has
aborted a fetch, some run goes on to an answer from that fetch if and only if its result was queued
already or slipped out during the abort, and to an answer with its token if and only if that result
was a success. `StaleRun` is such a run from the empty store.

**Access method selector** (`AccessModeRotation`, `AccessModeSelector`). After any commands the
index points at the current setting, and mode, endpoint and what the provider of connection modes
was told are what the resolver last answered. With k enabled methods, k rotations choose each of
them once, in cyclic order. When the current method is removed, the replacement is the first enabled
method at or after its place. The comment at mullvad-api/src/access_mode.rs:462-465 wants the method
that moves into the removed place to stay a candidate. That fails at place 0, where the index cannot
be decremented; `SkippingUpdate` is such a case, and `RemovalSkipsNothingExactlyWhen` says exactly
when nothing is skipped.

**Availability flags** (`ApiAvailability`). Every change is broadcast and nothing else is; each flag
holds what was last asked of it. A waiter returns an error exactly if its receiver has fallen
behind, and success on a state that satisfies it. Once its condition held at or after its first
check, it returns successfully in every run in which its receiver keeps up and receives often
enough, whatever else happens.

**Recent connections** (`RecentConnections`, `RecentConnectionsRepository`). The many-branched
duplicate comparison is equality of a key. Each list is the newest part of the whole history without
duplicates, so truncating at every step loses nothing. Deleting a custom list leaves no entry that
refers to it and keeps the rest in order; as the code stands it also drops unrestricted entries and
turns recents on. The store always holds the last value published as a success. The length bound
holds exactly for limits of at least 1, because enabling writes one entry without truncation.

**Log output stream** (`LogFileOutputStream`). The timer is live and the buffer in use exactly while
the stream waits to reopen, the buffer holds the last bytes since the last flush, and the file is
handed the accepted bytes in order, less what the buffer's bound dropped. The stream can recover
from every failure exactly if its header and a full buffer are within the file size limit. The
parameter of `openFileWithHeader` (ios/MullvadLogging/LogFileOutputStream.swift:191-197) is not used
by its body, so the message about the reopening that `reopenFile` passes is never written; the model
follows the body.

**IP address ranges** (`IPAddressRange`). Bit j of the subnet mask is set exactly when j is below
the prefix length, for the word arithmetic of IPv4 and for the byte loop with the overwritten word
of IPv6. Masking is idempotent, and two addresses share a network exactly if their first p bits
agree, as prefixes are defined in section 3.1 of RFC 4632 and section 2.3 of RFC 4291.

## Hypotheses

- The operation queue starts an operation once, and `finish` is called only after `start`.
- Observers and dependencies are added as early as the code's own assertions demand; the conditions
  of an operation are fixed when it is created.
- Distinct writes of the cached file leave distinct modification times, what is encoded decodes to
  the same content, and only file cache instances touch the file.
- The settings of the selector are what the settings type guarantees: the direct method first.
- Time, random choices, network results, and what system calls report are parameters of the steps.

## Model

| member | source | states |
|---|---|---|
| `OperationLifecycle.RunBlockKeepsWf` | ios/Operations/AsyncOperation.swift:282-298 | running a start, cancel or finish block keeps phase, start bookkeeping, pending blocks and every observer log consistent |
| `OperationLifecycle.FinishKeepsWf` | ios/Operations/AsyncOperation.swift:326-371 | a finish after start, first or repeated, keeps the operation consistent and queues at most one finish block |
| `OperationLifecycle.CancelKeepsWf` | ios/Operations/AsyncOperation.swift:304-320 | a cancel at any moment keeps the operation consistent; only one that interrupts a body queues a notification |
| `OperationLifecycle.ApplyKeepsWf` | ios/Operations/AsyncOperation.swift:194-371 | every critical section keeps the whole invariant of an operation |
| `OperationLifecycle.ApplyAdvances` | ios/Operations/AsyncOperation.swift:70-84 | no critical section lowers the phase, changes a final error, withdraws a reported verdict, or rewrites what an observer was told |
| `OperationScheduler.CategoriesAre` | ios/Operations/AsyncOperationQueue.swift:14-20 | an operation belongs to a category exactly if one of its conditions, wherever it stands, is mutually exclusive in it |
| `OperationScheduler.StepTouches` | ios/Operations/AsyncOperationQueue.swift:12-32 | a step changes one operation, and that one only forwards |
| `OperationScheduler.DeliveryStays` | ios/Operations/AsyncOperation.swift:326-337 | the finish is delivered by running the finish block and by nothing else, and stays delivered |
| `OperationScheduler.NewcomerWaits` | ios/Operations/AsyncOperationQueue.swift:61-80 | an enqueued operation depends on an operation at or after each one still listed in its category |
| `OperationScheduler.EnqueueChains` | ios/Operations/AsyncOperationQueue.swift:61-80 | after enqueueing, every operation of a category is finished or some dependency of each later one is at or behind it |
| `OperationScheduler.EnqueueLists` | ios/Operations/AsyncOperationQueue.swift:61-80 | registration appends in enqueue order and lists exactly the operations not yet delivered as finished |
| `OperationScheduler.RemoveFirstCuts` | ios/Operations/AsyncOperationQueue.swift:91-93 | removal takes out one position, the first that holds the operation, and nothing else |
| `OperationScheduler.LeaveLists` | ios/Operations/AsyncOperationQueue.swift:82-101 | removal takes the operation out of its lists entirely, keeps all others in order and leaves no empty list |
| `OperationScheduler.StepKeepsBase` | ios/Operations/AsyncOperationQueue.swift:12-101 | every step keeps distinct tickets, exact category lists and the chains of dependencies |
| `OperationScheduler.StartInTurn` | ios/Operations/AsyncOperation.swift:118-139 | starting an operation whose dependencies are finished means all earlier operations of its categories are finished |
| `OperationScheduler.StepKeepsTurns` | ios/Operations/AsyncOperation.swift:118-139 | no step of an orderly run lets an operation of a category start before an earlier one has finished |
| `OperationExclusivity.ExclusionOverRun` | ios/Operations/AsyncOperationQueue.swift:61-101 | over every orderly run the chains, turns and the order of executions hold |
| `OperationExclusivity.MutualExclusion` | ios/Operations/AsyncOperationQueue.swift:12-101 | in every orderly run, of the operations that carry a mutually exclusive condition of one category at most one executes, an operation that was started found all earlier ones finished, and bodies ran in enqueue order |
| `OperationExclusivity.ListedExactly` | ios/Operations/AsyncOperationQueue.swift:14-23 | in every run an enqueued operation is listed under a category exactly if it carries a condition of it and its finish block has not run |
| `OperationExclusivity.OvertakingRun` | ios/Operations/AsyncOperationQueue.swift:68-70 | a concrete run, under the rule that a cancelled operation ignores its dependencies, in which two operations of one category execute together |
| `OperationExclusivity.ExclusionExactlyUnderRule` | ios/Operations/AsyncOperation.swift:118-139 | exclusion holds in all runs if and only if readiness means that all dependencies are finished |
| `OperationFailure.VerdictGrants` | ios/Operations/NoFailedDependenciesCondition.swift:25-43 | a condition that says yes has seen each finished dependency succeed, or fail only by cancellation, or not be cancelled |
| `OperationFailure.StepKeepsFailure` | ios/Operations/AsyncOperation.swift:194-232 | what a satisfied condition said about the dependencies stays true under every step |
| `OperationFailure.ConditionsGuardBodies` | ios/Operations/AsyncOperation.swift:194-232 | in every run, a body that ran had each of its conditions hold of each of its dependencies |
| `OperationFailure.FailurePropagates` | ios/Operations/NoFailedDependenciesCondition.swift:25-43 | along every path of careful dependencies a body that ran implies success at the far end, and an error at the far end keeps the near end from ever running |
| `OperationHistory.ObserversToldRight` | ios/Operations/AsyncOperation.swift:282-379 | start, cancel and finish callbacks come at most once, finish last and with the final error, start exactly if the body ran, cancel for sure if the body was interrupted |
| `OperationHistory.LifecycleOverRun` | ios/Operations/AsyncOperation.swift:70-84 | over every run the phase never falls, the first error stays, observers are told in order and never untold, and only a cancelled operation finishes without running |
| `OperationHistory.CancelledNeverRuns` | ios/Operations/AsyncOperation.swift:282-298 | an operation cancelled before its body started never runs it, whatever follows |
| `OperationHistory.CancelBeforeStart` | ios/Operations/AsyncOperation.swift:304-320 | a request to cancel that comes before the body has started, in any phase, keeps it from ever starting |
| `OperationHistory.CancelWhileExecuting` | ios/Operations/AsyncOperation.swift:309-315 | a request to cancel that comes while the body runs is told to every observer attached by then: the complete log is start, cancel, finish |
| `OperationHistory.FirstFinishDecides` | ios/Operations/AsyncOperation.swift:326-371 | the first finish, or the cancelled start, decides the error for good, and every observer attached by then is told exactly that one, last |
| `OperationHistory.ObserversAreAttached` | ios/Operations/AsyncOperation.swift:168-174 | over every run the observers told are those attached, one for each attachment |
| `OperationCauses.VerdictIsExact` | ios/Operations/NoFailedDependenciesCondition.swift:25-43 | of finished dependencies a condition says no exactly if one of them failed, or was cancelled where that counts |
| `OperationCauses.StepKeepsCauses` | ios/Operations/AsyncOperation.swift:194-232 | every step keeps: each recorded answer is the one reported or has a dependency to blame, and each cancellation a request or a no |
| `OperationCauses.SkippedOnlyForCause` | ios/Operations/AsyncOperation.swift:220-232 | in every run an operation cancelled or finished without running was asked to cancel or had a condition with a reason to refuse; one that ran had every block condition reported satisfied and none otherwise |
| `OperationDependencies.BodiesWait` | ios/Operations/AsyncOperation.swift:118-139 | in every run, under either readiness rule, an operation depends on exactly what it was given explicitly or by its categories, and all of that is finished if its body ran |
| `OperationProgress.StepKeepsBackEdges` | ios/Operations/AsyncOperationQueue.swift:61-80 | explicit dependencies on earlier operations together with the added ones always point to earlier tickets |
| `OperationProgress.PathsFall` | ios/Operations/AsyncOperationQueue.swift:61-80 | tickets fall along every dependency path, so no path returns to its start |
| `OperationProgress.NextStepExists` | ios/Operations/AsyncOperation.swift:118-139 | an operation whose dependencies are finished always has a step, and the step brings it closer to its end |
| `OperationProgress.EarliestIsFree` | ios/Operations/AsyncOperation.swift:118-139 | the earliest unfinished operation has all its dependencies finished |
| `OperationProgress.NoDeadlock` | ios/Operations/AsyncOperationQueue.swift:12-101 | in every disciplined run the dependency graph has no cycle and the run can be continued until every enqueued operation is finished |
| `AsyncOperationObject.AsyncOperation.constructor` | ios/Operations/AsyncOperation.swift:239-246 | a new operation is initialized, not cancelled and without observers |
| `AsyncOperationObject.AsyncOperation.SetState` | ios/Operations/AsyncOperation.swift:76-83 | the new phase is strictly later than the old one |
| `AsyncOperationObject.AsyncOperation.AddObserver` | ios/Operations/AsyncOperation.swift:168-174 | an observer starts with an empty log |
| `AsyncOperationObject.AsyncOperation.Notify` | ios/Operations/AsyncOperation.swift:373-379 | every observer hears the callback once, after what it heard before |
| `AsyncOperationObject.AsyncOperation.DidEnqueue` | ios/Operations/AsyncOperation.swift:341-350 | an initialized operation becomes pending, any other is left alone |
| `AsyncOperationObject.AsyncOperation.EvaluateConditions` | ios/Operations/AsyncOperation.swift:194-218 | without conditions the operation is ready at once; otherwise the answers given so far are recorded |
| `AsyncOperationObject.AsyncOperation.CheckReadiness` | ios/Operations/AsyncOperation.swift:352-359 | conditions are asked only of a pending, uncancelled operation whose dependencies are finished |
| `AsyncOperationObject.AsyncOperation.DidEvaluateConditions` | ios/Operations/AsyncOperation.swift:220-232 | all answers in, the operation becomes ready, cancelled if any answer was no |
| `AsyncOperationObject.AsyncOperation.Start` | ios/Operations/AsyncOperation.swift:269-280 | starting queues the start block |
| `AsyncOperationObject.AsyncOperation.Cancel` | ios/Operations/AsyncOperation.swift:304-320 | the first cancel marks the operation and, while it executes, queues the notification; later ones do nothing |
| `AsyncOperationObject.AsyncOperation.TryFinish` | ios/Operations/AsyncOperation.swift:361-371 | the first finish wins and sets the error; any later one changes nothing |
| `AsyncOperationObject.AsyncOperation.Finish` | ios/Operations/AsyncOperation.swift:326-337 | only the winning finish queues the callback |
| `AsyncOperationObject.AsyncOperation.RunStart` | ios/Operations/AsyncOperation.swift:282-298 | a cancelled operation is told so and goes on to finish; any other starts executing and its observers hear of it |
| `AsyncOperationObject.AsyncOperation.RunCancel` | ios/Operations/AsyncOperation.swift:312-314 | every observer hears of the cancellation |
| `AsyncOperationObject.AsyncOperation.RunFinish` | ios/Operations/AsyncOperation.swift:329-336 | every observer hears of the finish with the final error |
| `AsyncOperationObject.AsyncOperation.RunNextBlock` | ios/Operations/AsyncOperation.swift:282-298 | the block at the head does what the step function says and keeps the operation consistent |
| `AsyncOperationQueueObject.ExclusivityManager.constructor` | ios/Operations/AsyncOperationQueue.swift:56-59 | no category has operations |
| `AsyncOperationQueueObject.ExclusivityManager.AddOperation` | ios/Operations/AsyncOperationQueue.swift:61-80 | whatever the order of categories, each list gains the operation at its end and the operation depends on exactly the former last ones |
| `AsyncOperationQueueObject.ExclusivityManager.RemoveOperation` | ios/Operations/AsyncOperationQueue.swift:82-101 | whatever the order of categories, each list loses the first occurrence and empty lists go |
| `AsyncOperationQueueObject.RemoveFrom` | ios/Operations/AsyncOperationQueue.swift:91-93 | the search and removal loop removes the first occurrence or nothing |
| `AsyncOperationQueueObject.CategoriesOf` | ios/Operations/AsyncOperationQueue.swift:14-20 | the set of names of the mutually exclusive conditions |
| `AsyncOperationQueueObject.AsyncOperationQueue.constructor` | ios/Operations/AsyncOperationQueue.swift:53-54 | uses the shared manager |
| `AsyncOperationQueueObject.AsyncOperationQueue.AddOperation` | ios/Operations/AsyncOperationQueue.swift:12-32 | the operation is listed under every category among its conditions, depends on the former last of each, and becomes pending |
| `ResultOperations.StepKeepsWf` | ios/Operations/ResultOperation.swift:95-141 | every step keeps the tie between first result, pending handler call, calls made and the state of the operation |
| `ResultOperations.FirstResultStays` | ios/Operations/ResultOperation.swift:95-132 | after the first result no event changes the result, brings back a handler, or adds a second call |
| `ResultOperations.ExactlyOnce` | ios/Operations/ResultOperation.swift:95-132 | over every run the result is the first that any finish gave, an error as it was given; at most one handler call, with that result, before the operation is finished; a finished operation's result is that one |
| `ResultOperations.HandlerCalledOnEnd` | ios/Operations/ResultOperation.swift:95-132 | once a result is given, a finished operation has called the handler in place exactly once with it |
| `ResultOperations.HandlerIsLastAssigned` | ios/Operations/ResultOperation.swift:50-64 | until a result is given the handler is the last one assigned |
| `ResultOperations.ResultOperation.constructor` | ios/Operations/ResultOperation.swift:70-79 | no result, the given handler, nothing called |
| `ResultOperations.ResultOperation.SetCompletionHandler` | ios/Operations/ResultOperation.swift:50-64 | an assignment takes effect exactly before the first result |
| `ResultOperations.ResultOperation.Finish` | ios/Operations/ResultOperation.swift:95-119 | the first result is kept and the handler taken; a later call changes nothing |
| `ResultOperations.ResultOperation.FinishWithError` | ios/Operations/ResultOperation.swift:81-89 | finishes with the given error as a failure, or as cancelled without one |
| `ResultOperations.ResultOperation.RunCompletion` | ios/Operations/ResultOperation.swift:121-140 | the handler is called before the operation finishes, and then the result is the first one given |
| `ResultOperations.ResultOperation.GetResult` | ios/Operations/ResultOperation.swift:21-26 | the output if there is one, else the error, else nothing |
| `FileCacheConsistency.FastPathIsTrue` | ios/MullvadTypes/FileCache.swift:48-61 | equal modification times mean that the cached content is what the file showed at that instant |
| `FileCacheConsistency.StepLocks` | ios/MullvadTypes/FileCache.swift:84-127 | no step lets anyone hold the lock together with an exclusive holder |
| `FileCacheConsistency.StepCalls` | ios/MullvadTypes/FileCache.swift:48-127 | what each call in progress knows about the files stays true under every step of every other call |
| `FileCacheConsistency.StepCaches` | ios/MullvadTypes/FileCache.swift:72-79 | a cache only ever forgets or holds a content and modification time the file really had together |
| `FileCacheConsistency.StepReturns` | ios/MullvadTypes/FileCache.swift:48-127 | every step keeps the record of returned calls true, each with its own instant |
| `FileCacheConsistency.StepKeepsInv` | ios/MullvadTypes/FileCache.swift:48-127 | every system call, failure and crash keeps the whole invariant |
| `FileCacheConsistency.CallsAreTrue` | ios/MullvadTypes/FileCache.swift:48-127 | in every run, crashes included, each call that returned took effect at an instant between its call and its return: the file then showed what a read gave back, or a step of that very write or clear changed it then, to the bytes given or to nothing; and every cached pair is a true past version |
| `FileCacheConsistency.StepKeepsWhole` | ios/MullvadTypes/FileCache.swift:84-103 | every step keeps: what was written is the whole of an asked-for content, and every write under way carries such a content |
| `FileCacheConsistency.FileIsAlwaysWhole` | ios/MullvadTypes/FileCache.swift:84-127 | at every instant of every run the file is absent, the file found at the start, or exactly the bytes of one content that a call of the run was asked to write |
| `FileCacheConsistency.StepSameButTemp` | ios/MullvadTypes/FileCache.swift:96-103 | two worlds that differ in an abandoned temporary file allow the same steps with the same effects |
| `FileCacheConsistency.LeftoverTempIsInert` | ios/MullvadTypes/FileCache.swift:96-103 | over every run an abandoned temporary file changes no read, write, clear or cache |
| `FileCacheProgress.FreeCallSteps` | ios/MullvadTypes/FileCache.swift:48-127 | a call that the lock does not keep out always has a step towards its end |
| `FileCacheProgress.ReleaseAll` | ios/MullvadTypes/FileCache.swift:63-71 | all holders of the lock can go to their end without anyone else moving |
| `FileCacheProgress.EveryCallCanEnd` | ios/MullvadTypes/FileCache.swift:48-127 | after any run, crashes included, each call under way can be brought to its end: a write returns with its content, a read or clear returns unless it finds no file or one that does not decode |
| `FileCacheUse.FailuresLeaveTheFile` | ios/MullvadTypes/FileCache.swift:84-127 | over every run no error, partial write, failed look or crash changes the file |
| `FileCacheUse.CrashReleases` | ios/MullvadTypes/FileCache.swift:25-27 | a crash ends exactly the calls of its process and frees the locks they held |
| `FileCacheUse.ReturnsAnswerCalls` | ios/MullvadTypes/FileCache.swift:48-127 | over every run each return belongs to a call event by the same task, a write with that content, and to the step that returned it |
| `FileCacheUse.TempOnlyWhileWriting` | ios/MullvadTypes/FileCache.swift:96-103 | while nobody dies and no write of it fails, a temporary file exists only while a write is at work on it |
| `FileCacheUse.CacheIsLastStored` | ios/MullvadTypes/FileCache.swift:76-79 | over every run an instance remembers what its last read or write stored, nothing after a clear or a crash |
| `FileCacheUse.FastExactlyWhenRemembered` | ios/MullvadTypes/FileCache.swift:49-61 | a read goes without the lock exactly if its instance remembers the modification time it saw, and gives back what it remembers |
| `FileCacheUse.UndisturbedWrite` | ios/MullvadTypes/FileCache.swift:84-110 | an undisturbed write replaces the file, leaves no temporary file, and is remembered with its time unless the look at the file failed |
| `FileCacheUse.UndisturbedRead` | ios/MullvadTypes/FileCache.swift:63-82 | an undisturbed slow read gives back what the file decodes to and remembers it with its time unless the look failed |
| `FileCacheUse.ReadAgain` | ios/MullvadTypes/FileCache.swift:49-61 | whoever remembers the file as it is reads it without the lock; after a failed look the read takes the lock |
| `FileCacheObject.FileCache.constructor` | ios/MullvadTypes/FileCache.swift:43-46 | a new instance caches nothing |
| `FileCacheObject.FileCache.Read` | ios/MullvadTypes/FileCache.swift:48-82 | fast or slow, a read that succeeds equals a plain read of the file under the lock; it needs no lock exactly if the file is remembered; errors leave the cache alone |
| `FileCacheObject.FileCache.Write` | ios/MullvadTypes/FileCache.swift:84-110 | succeeds exactly if locking, writing and renaming do, and then the file decodes to the content and is remembered; on failure file and cache are unchanged |
| `FileCacheObject.FileCache.Clear` | ios/MullvadTypes/FileCache.swift:112-127 | succeeds exactly if locked and the file exists, and then file and cache are gone; on failure both stay |
| `FileCacheObject.WriteThenReadElsewhere` | ios/MullvadVPNTests/MullvadTypes/FileCacheTests.swift:96-109 | what one instance writes another reads, whatever it had cached |
| `AccessTokens.StepKeepsChannels` | mullvad-api/src/access.rs:58-144 | every step keeps each request in exactly one place |
| `AccessTokenTheorems.FetchedTokenIsReused` | mullvad-api/src/access.rs:127-142 | a completed fetch answers all waiters in order, and the next request at any time before its expiry at once, with the same token and without a new fetch |
| `AccessTokenTheorems.InvalidationForcesFetch` | mullvad-api/src/access.rs:106-123 | the first request after an invalidation starts a fetch of its own and is not answered from memory |
| `AccessTokenTheorems.FetchesAreShared` | mullvad-api/src/access.rs:85-104 | however many requests arrive, over every run an account begins at most one fetch more than the completions and invalidations handled for it |
| `AccessTokenTheorems.StepKeepsFetches` | mullvad-api/src/access.rs:67-142 | answers carry results fetched for their account, and whoever waits has a fetch running or queued, under every step |
| `AccessTokenTheorems.EveryRequestAccountedFor` | mullvad-api/src/access.rs:58-144 | in every run each request is answered once, waiting under its account, in the inbox or dropped; an answer is the token or the error that a fetch for that account returned; no waiter is stranded |
| `AccessTokenTheorems.AnsweredExactlyBeforeExpiry` | mullvad-api/src/access.rs:67-105 | in every run a request is answered on the spot exactly if the account holds a token that expires later, with that token, which a fetch for the account returned; otherwise it waits for a fetch and an expired token is gone |
| `AccessTokenTheorems.TokenIsLastFetched` | mullvad-api/src/access.rs:127-142 | over every run an account holds the token of the last successful fetch handled for it, whatever failed since, until an invalidation or a request that finds it expired |
| `AccessTokenTheorems.StepKeepsOneLive` | mullvad-api/src/access.rs:85-104 | without an aborted fetch getting through, at most one fetch per account stays live |
| `AccessTokenTheorems.StepKeepsFresh` | mullvad-api/src/access.rs:106-142 | without an aborted fetch getting through, stored tokens and fetches belong to the time after the last invalidation |
| `AccessTokenTheorems.CleanRunsAreFresh` | mullvad-api/src/access.rs:67-142 | in every run in which no aborted fetch got its completion queued, at most one fetch per account is live and no answer carries a token fetched before an invalidation that preceded the answer |
| `AccessTokenTheorems.QueuedIsServed` | mullvad-api/src/access.rs:127-142 | from any state, with anything queued, a queued completion can still be the answer to someone who asks |
| `AccessTokenTheorems.StepKeepsGone` | mullvad-api/src/access.rs:58-144 | a fetch that is neither running, queued, stored nor in flight stays so and answers nobody |
| `AccessTokenTheorems.AbortedFetchServedExactlyWhen` | mullvad-api/src/access.rs:106-142 | in every reachable state, with anything queued: after an invalidation aborts a fetch, some run answers from that fetch if and only if its result was queued or slipped out during the abort, and some run hands out its token if and only if that result is a success |
| `AccessTokenTheorems.StaleRun` | mullvad-api/src/access.rs:97-142 | a concrete run of seven steps from the empty store in which a request made after an invalidation is answered with the old token |
| `AccessTokenActor.TokenActor.constructor` | mullvad-api/src/access.rs:54-56 | no accounts, nothing asked, nothing sent |
| `AccessTokenActor.TokenActor.Respond` | mullvad-api/src/access.rs:77 | one response is sent and recorded |
| `AccessTokenActor.TokenActor.GetAccessToken` | mullvad-api/src/access.rs:67-105 | handles a request exactly as the model step: answer, join or fetch |
| `AccessTokenActor.TokenActor.InvalidateToken` | mullvad-api/src/access.rs:106-123 | drops waiters and token and aborts the fetch, exactly as the model step |
| `AccessTokenActor.TokenActor.Completed` | mullvad-api/src/access.rs:127-142 | the loop answers every waiter once, in order, and stores a fetched token |
| `AccessTokenActor.TokenActor.HandleNext` | mullvad-api/src/access.rs:59-125 | one turn of the loop on an action is one step of the model |
| `AccessTokenActor.TokenActor.HandleNextCompletion` | mullvad-api/src/access.rs:127-142 | one turn of the loop on a completion is one step of the model |
| `AccessModeRotation.FindFromIsFirst` | mullvad-api/src/access_mode.rs:419-429 | the cyclic search finds the first enabled position within its reach and nothing only if there is none |
| `AccessModeRotation.NextActiveIsFirst` | mullvad-api/src/access_mode.rs:419-429 | if any method is enabled, the choice is the first enabled one from the start on, going round |
| `AccessModeRotation.NoneActiveIsDirect` | mullvad-api/src/access_mode.rs:428 | if none is enabled the choice is the direct method |
| `AccessModeRotation.RotationsFollow` | mullvad-api/src/access_mode.rs:356-375 | rotating again and again follows the enabled positions of the endless cycle one by one |
| `AccessModeRotation.FullTurn` | mullvad-api/src/access_mode.rs:356-375 | as many rotations as enabled methods visit each enabled index once, in cyclic order |
| `AccessModeSelectors.UpdateConsistent` | mullvad-api/src/access_mode.rs:440-471 | every way of taking up new settings keeps index, current setting and the provider in agreement |
| `AccessModeSelectors.AlwaysConsistent` | mullvad-api/src/access_mode.rs:259-286 | after any commands the index is in range and points at the current setting, and the provider was last told the current mode |
| `AccessModeSelectors.StepResolves` | mullvad-api/src/access_mode.rs:377-388 | a command that selects or re-reads a method takes what the resolver answered and tells the provider once; any other command changes neither |
| `AccessModeSelectors.CurrentIsResolved` | mullvad-api/src/access_mode.rs:499-518 | after any commands, endpoint, mode and the provider's view are the pair the resolver last answered, or the default endpoint reached directly if it had none |
| `AccessModeSelectors.SpawnStandsOnFirst` | mullvad-api/src/access_mode.rs:259-265 | the selector starts on the first enabled method, or on the direct one if none is enabled |
| `AccessModeSelectors.UseSelects` | mullvad-api/src/access_mode.rs:329-349 | a known id is selected, enabled or not; an unknown one changes nothing |
| `AccessModeSelectors.UpdateChooses` | mullvad-api/src/access_mode.rs:449-460 | an unchanged method stays silently, a changed enabled one stays with its new content, a disabled one gives way to the next enabled |
| `AccessModeSelectors.RotateCommandsRotate` | mullvad-api/src/access_mode.rs:356-375 | rotate commands visit the indices of the rotation whatever the resolver answers |
| `AccessModeSelectors.RotationIsFair` | mullvad-api/src/access_mode.rs:356-375 | from every reachable state a full turn of rotate commands chooses each enabled method exactly once, in cyclic order |
| `AccessModeSelectors.IterIsComplete` | mullvad-types/src/access_method.rs:153-161 | the methods that go round are exactly those of the settings, the custom ones in order behind the four built-in ones |
| `AccessModeSelectors.EveryMethodHasItsTurn` | mullvad-api/src/access_mode.rs:356-375 | from every reachable state each enabled method of the settings, built in or custom, is chosen within one round |
| `AccessModeSelectors.RemovalTakesSuccessor` | mullvad-api/src/access_mode.rs:461-468 | a method removed from place i of at least 1 is replaced by the first enabled one at or after i, going round |
| `AccessModeSelectors.RemovalSkipsNothingExactlyWhen` | mullvad-api/src/access_mode.rs:461-468 | for every place: nothing is skipped if and only if the place is not 0, or the method now at 0 is disabled or the only one enabled |
| `AccessModeSelectors.SkippingUpdate` | mullvad-api/src/access_mode.rs:461-468 | concrete settings with distinct ids where the method at place 0 is replaced by an enabled one and that one is passed over |
| `AccessModeSelectors.FindPosition` | mullvad-api/src/access_mode.rs:443-447 | the loop finds the first position with the id, or none |
| `AccessModeSelectors.AccessModeSelector.constructor` | mullvad-api/src/access_mode.rs:259-277 | starts in the spawned state |
| `AccessModeSelectors.AccessModeSelector.MakeCurrent` | mullvad-api/src/access_mode.rs:377-413 | resolves, tells the provider and becomes current, with the fallback for an unresolved method |
| `AccessModeSelectors.AccessModeSelector.UseAccessMethod` | mullvad-api/src/access_mode.rs:329-349 | selects by id and stays consistent |
| `AccessModeSelectors.AccessModeSelector.NextConnectionMode` | mullvad-api/src/access_mode.rs:370-374 | rotates, stays consistent and returns the mode now current |
| `AccessModeSelectors.AccessModeSelector.UpdateAccessMethods` | mullvad-api/src/access_mode.rs:440-471 | takes up the settings and stays consistent |
| `ApiAvailability.FlagsAreLastAsked` | mullvad-api/src/availability.rs:194-258 | after any run each flag holds what was last asked of it, whatever happened to the others |
| `ApiAvailability.FlagsFromTheStart` | mullvad-api/src/availability.rs:54-65 | from a new hub on, which starts active with its timer running, each flag and the timer are as last asked |
| `ApiAvailability.TimerIsLastAsked` | mullvad-api/src/availability.rs:73-88 | the timer counts as running exactly from a reset to the next stop |
| `ApiAvailability.ReadyIsClear` | mullvad-api/src/availability.rs:37-49 | each want is met exactly if the flags in its way are down: offline, suspended, or any of the four for background requests |
| `ApiAvailability.StepKeepsWaiters` | mullvad-api/src/availability.rs:165-185 | every step keeps what each waiter knows about the states it has passed, and of a returned one whether it had fallen behind |
| `ApiAvailability.WakeUpIsPending` | mullvad-api/src/availability.rs:173-182 | a state that would wake a waiter, seen at or after its first check, is still ahead of its receiver |
| `ApiAvailability.WakesUp` | mullvad-api/src/availability.rs:178-183 | in every continuation, whatever else happens, a waiter that keeps up at its own receives has returned successfully or still has a possible receive, at most as many as there are broadcasts up to the good state |
| `ApiAvailability.ReturnsAreRight` | mullvad-api/src/availability.rs:165-258 | over every run: broadcasts are exactly the changes and end in the current state; a task returned an error if and only if its receiver had fallen behind by more than the channel keeps; success was returned on a state whose flags allow it; no state received before did |
| `ApiAvailability.NoLostWakeUp` | mullvad-api/src/availability.rs:165-258 | a task still waiting after any run, with the flags in its way down at or after its first check, returns successfully in every continuation in which its receiver keeps up and receives often enough, and never with an error; until then its next receive is possible |
| `ApiAvailability.ApiAvailabilityState.constructor` | mullvad-api/src/availability.rs:54-65 | the initial state, made active by the first timer |
| `ApiAvailability.ApiAvailabilityState.SuspendRequests` | mullvad-api/src/availability.rs:195-201 | suspends, broadcasting only a change |
| `ApiAvailability.ApiAvailabilityState.UnsuspendRequests` | mullvad-api/src/availability.rs:203-209 | unsuspends, broadcasting only a change |
| `ApiAvailability.ApiAvailabilityState.MakeInactive` | mullvad-api/src/availability.rs:211-218 | becomes inactive, broadcasting only a change |
| `ApiAvailability.ApiAvailabilityState.MakeActive` | mullvad-api/src/availability.rs:220-230 | becomes active, broadcasting only a change |
| `ApiAvailability.ApiAvailabilityState.MakeOffline` | mullvad-api/src/availability.rs:232-242 | takes the given connectivity, broadcasting only a change |
| `ApiAvailability.ApiAvailabilityState.Pause` | mullvad-api/src/availability.rs:244-250 | pauses background requests, broadcasting only a change |
| `ApiAvailability.ApiAvailabilityState.Resume` | mullvad-api/src/availability.rs:94-104 | background requests are no longer paused; a running timer starts anew and ends inactivity; nothing else changes |
| `ApiAvailability.ApiAvailabilityState.StopInactivityTimer` | mullvad-api/src/availability.rs:260-265 | the timer no longer counts as running |
| `ApiAvailability.ApiAvailabilityState.ResetInactivityTimer` | mullvad-api/src/availability.rs:73-83 | restarts the timer and becomes active |
| `RecentConnections.DuplicatesIsSameKey` | ios/MullvadSettings/RecentConnectionsRepository.swift:164-195 | two entries are duplicates exactly if their keys are equal: the list id for a whole list, the locations for anything else |
| `RecentConnections.DuplicatesIsEquivalence` | ios/MullvadSettings/RecentConnectionsRepository.swift:164-195 | the duplicate comparison is reflexive, symmetric and transitive |
| `RecentConnections.IsDuplicateIsHasKey` | ios/MullvadSettings/RecentConnectionsRepository.swift:164-195 | an entry is a duplicate of a list exactly if its key occurs there |
| `RecentConnections.DedupDistinct` | ios/MullvadSettings/RecentConnectionsRepository.swift:138-145 | removing duplicates leaves pairwise distinct keys |
| `RecentConnections.DedupKeys` | ios/MullvadSettings/RecentConnectionsRepository.swift:138-145 | removing duplicates loses no key and adds none |
| `RecentConnections.DedupKeepsFirsts` | ios/MullvadSettings/RecentConnectionsRepository.swift:138-145 | what removing duplicates keeps are entries in their order, each the first with its key |
| `RecentConnections.TruncationIsHarmless` | ios/MullvadSettings/RecentConnectionsRepository.swift:76-88 | inserting into the truncated list and truncating equals truncating the whole history with the insertion |
| `RecentConnectionsRepositories.DeletionIsExact` | ios/MullvadSettings/RecentConnectionsRepository.swift:113-152 | on a reachable list, deletion removes exactly the whole-list entry and unrestricted entries, merges and truncates nothing, keeps the order and leaves no reference |
| `RecentConnectionsRepositories.ClearedSurvivors` | ios/MullvadSettings/RecentConnectionsRepository.swift:114-135 | clearing keeps, in order, every entry but unrestricted ones and the whole list itself, as it was or without its mention of the list |
| `RecentConnectionsRepositories.DeletionOfAnyList` | ios/MullvadSettings/RecentConnectionsRepository.swift:147-152 | on any list, reachable or not, deletion leaves distinct keys within the limit and no mention of the list, and loses no key of the first maxLimit entries left after clearing |
| `RecentConnectionsRepositories.StepKeepsStore` | ios/MullvadSettings/RecentConnectionsRepository.swift:41-162 | every operation keeps keys distinct and lists within the limit |
| `RecentConnectionsRepositories.AlwaysDistinctAndBounded` | ios/MullvadSettings/RecentConnectionsRepository.swift:41-162 | after any operations keys are distinct and lists within the limit |
| `RecentConnectionsRepositories.BoundHoldsExactlyWhen` | ios/MullvadSettings/RecentConnectionsRepository.swift:52-66 | the bound holds in all runs if and only if the limit is at least 1 |
| `RecentConnectionsRepositories.StoreIsLastPublished` | ios/MullvadSettings/RecentConnectionsRepository.swift:41-162 | after any operations the store holds the last value published as a success |
| `RecentConnectionsRepositories.DeletionOverRun` | ios/MullvadSettings/RecentConnectionsRepository.swift:109-162 | right after a deletion, in any reachable store, no entry refers to the list, the survivors stand in order and as they were less the mention of the list, and recents are enabled |
| `RecentConnectionsRepositories.DisabledStaysEmpty` | ios/MullvadSettings/RecentConnectionsRepository.swift:41-50 | once disabled, recents stay disabled and empty, and additions are refused, until an enable or a deletion is stored |
| `RecentConnectionsRepositories.ListsAreRecentHistory` | ios/MullvadSettings/RecentConnectionsRepository.swift:52-98 | after enabling and any additions, with loads and failed operations between them, both lists are the first maxLimit entries of the whole stored history, newest first, without duplicates |
| `RecentConnectionsRepositories.RecentConnectionsRepository.constructor` | ios/MullvadSettings/RecentConnectionsRepository.swift:36-39 | nothing published |
| `RecentConnectionsRepositories.RecentConnectionsRepository.DisableRecents` | ios/MullvadSettings/RecentConnectionsRepository.swift:41-50 | stores disabled, empty lists and publishes them, or publishes the failure |
| `RecentConnectionsRepositories.RecentConnectionsRepository.EnableRecents` | ios/MullvadSettings/RecentConnectionsRepository.swift:52-66 | stores the selected locations and publishes them, or publishes the failure |
| `RecentConnectionsRepositories.RecentConnectionsRepository.AddRecent` | ios/MullvadSettings/RecentConnectionsRepository.swift:68-98 | inserts at the front of both lists by the loop, or publishes why not |
| `RecentConnectionsRepositories.RecentConnectionsRepository.DeleteList` | ios/MullvadSettings/RecentConnectionsRepository.swift:109-162 | clears, removes duplicates and truncates both lists by the loops, or publishes why not |
| `RecentConnectionsRepositories.RemoveDuplicates` | ios/MullvadSettings/RecentConnectionsRepository.swift:138-145 | the loop computes the list whose entries, order and keys the lemmas on removing duplicates describe |
| `RecentConnectionsRepositories.ClearCustomList` | ios/MullvadSettings/RecentConnectionsRepository.swift:114-135 | the loop drops and rewrites entries one by one, in order |
| `LogFileOutputStreams.LastBytesAgain` | ios/MullvadLogging/LogFileOutputStream.swift:217-223 | trimming after each chunk equals trimming once |
| `LogFileOutputStreams.StepKeepsBuffer` | ios/MullvadLogging/LogFileOutputStream.swift:27-40 | timer, state and buffer stay in agreement under every step |
| `LogFileOutputStreams.StepKeepsHistory` | ios/MullvadLogging/LogFileOutputStream.swift:91-117 | every step keeps what was handed to the file in order with what was accepted |
| `LogFileOutputStreams.NothingReorderedOrInvented` | ios/MullvadLogging/LogFileOutputStream.swift:91-223 | over every run the timer is live exactly while waiting, the buffer is the last bytes since the last flush, and the file was handed the accepted bytes in order, less what the bound dropped |
| `LogFileOutputStreams.WriteReachesFileExactly` | ios/MullvadLogging/LogFileOutputStream.swift:91-138 | a write is handed over at once exactly if the file is or can be opened and takes it; otherwise nothing is handed over and the stream waits |
| `LogFileOutputStreams.HandedIsTaken` | ios/MullvadLogging/LogFileOutputStream.swift:119-138 | over every run the file was handed exactly the bytes of the steps in which it was open or could be opened and took them, in order |
| `LogFileOutputStreams.OversizedBufferNeverFlushes` | ios/MullvadLogging/LogFileOutputStream.swift:119-138 | a waiting stream whose buffer exceeds the file size limit waits through every run and hands over nothing |
| `LogFileOutputStreams.RecoversExactlyWhen` | ios/MullvadLogging/LogFileOutputStream.swift:199-215 | every waiting state of every run can be left, handing the whole buffer over, if and only if the header and a full buffer are within the file size limit |
| `LogFileOutputStreams.LogFileOutputStream.constructor` | ios/MullvadLogging/LogFileOutputStream.swift:54-76 | closed, no timer, empty buffer |
| `LogFileOutputStreams.LogFileOutputStream.SetState` | ios/MullvadLogging/LogFileOutputStream.swift:27-40 | the timer starts on the way into waiting and stops on the way out |
| `LogFileOutputStreams.LogFileOutputStream.Buffer` | ios/MullvadLogging/LogFileOutputStream.swift:217-223 | the buffer is the last bytes of old buffer and data |
| `LogFileOutputStreams.LogFileOutputStream.WriteToFile` | ios/MullvadLogging/LogFileOutputStream.swift:119-138 | a chunk over the limit is refused |
| `LogFileOutputStreams.LogFileOutputStream.OpenFileWithHeader` | ios/MullvadLogging/LogFileOutputStream.swift:191-197 | opening needs the header to be written too |
| `LogFileOutputStreams.LogFileOutputStream.WriteOnQueue` | ios/MullvadLogging/LogFileOutputStream.swift:91-117 | in each state hands over or buffers as the model step says |
| `LogFileOutputStreams.LogFileOutputStream.ReopenFile` | ios/MullvadLogging/LogFileOutputStream.swift:199-215 | flushes and opens, or waits on |
| `IPAddressRanges.ParseAddressString` | ios/MullvadTypes/IPAddressRange.swift:71-92 | fails exactly without an address or with an unreadable prefix; otherwise the prefix is the given one, and 32 or 128 by family if absent or larger |
| `IPAddressRanges.WordMaskBytes` | ios/MullvadTypes/IPAddressRange.swift:96-104 | the four shifted and truncated bytes of the word carry the prefix bits between them |
| `IPAddressRanges.MaskBits` | ios/MullvadTypes/IPAddressRange.swift:94-122 | bit j of the mask is set exactly when j is below the prefix length |
| `IPAddressRanges.SubnetMaskV4` | ios/MullvadTypes/IPAddressRange.swift:96-104 | the word arithmetic yields the mask |
| `IPAddressRanges.SubnetMaskV6` | ios/MullvadTypes/IPAddressRange.swift:106-120 | the byte loop and the overwritten word together yield the mask |
| `IPAddressRanges.SubnetMask` | ios/MullvadTypes/IPAddressRange.swift:94-122 | for both families, bit j of the result is set exactly when j is below the prefix length |
| `IPAddressRanges.MaskedAddress` | ios/MullvadTypes/IPAddressRange.swift:124-137 | the loop masks every byte in place |
| `IPAddressRanges.MaskedBits` | ios/MullvadTypes/IPAddressRange.swift:124-137 | the masked address keeps the first p bits and clears the rest |
| `IPAddressRanges.MaskedIsIdempotent` | ios/MullvadTypes/IPAddressRange.swift:124-137 | masking a masked address changes nothing |
| `IPAddressRanges.SameNetwork` | ios/MullvadTypes/IPAddressRange.swift:124-137 | two addresses mask to the same value exactly if their first p bits agree |

## Left out

- Readiness through key-value observation: the model re-checks readiness at any moment instead of on notifications, and starting on the operation's own queue is the special case of running the start block at once.
- Conditions added after an operation is created, dependencies that are not asynchronous operations, group operations, and `maxConcurrentOperationCount` with `makeSerial`.
- The dispatch group that collects condition results: an answer counts when it arrives.
- Fairness of the operation queue: `NoDeadlock` shows that every enqueued operation can be finished, not that a given queue does so in time.
- OperationScheduler.StepKeepsTurns: holds for orderly runs only, because exclusion is false for the others; `ExclusionExactlyUnderRule` gives the exact condition on the rule.
- AsyncOperationQueueObject.AsyncOperationQueue.AddOperation: runs without interleaving; in the step system enqueueing, submission and the notice to the operation are three steps.
- FileCacheConsistency.CallsAreTrue: opening the lock file and locking it are one step, and the contents of the lock file are not modelled.
- Equal modification times of distinct writes, and programs other than the file cache that change the file.
- FileCacheObject.FileCache.Write: runs without interleaving; the interleaved form is the step system.
- The end of the token store's loop when all senders are gone, fetch tasks that panic, and retries inside a fetch.
- The `api-override` feature, the announcements of access method events, replies that fail, and the selector's resolver, whose answers are parameters.
- The real-time behaviour of the inactivity timer: only its flag changes are modelled, and a timer may fire at any moment, aborted or not. The capacity of the broadcast channel is a parameter (the code asks for 100).
- JSON encoding and the settings store behind recent connections: a stored value is abstract data and each write says whether it succeeded.
- LogFileOutputStreams.LogFileOutputStream.WriteToFile: whether the handle accepts the data is a parameter; truncation of the file in half, partial writes before an error, text encoding, and the contents of the file are not modelled.
- IPAddressRanges.ParseAddressString: the texts of the address and of the prefix are parsed outside the model.
- Prefix lengths above the family's maximum that reach a range without parsing, its description and its coding.
- The HTTP client, proxies, TLS and abortable streams, the device service, the installer downloader, the Rust runtime bindings, the keychain, settings migrations, log rotation, custom lists, IP overrides, key coding, saturating arithmetic, promises and observer lists: sockets, foreign calls, or members that would only be easy.
- User interface and tests.
