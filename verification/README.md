# Verified model of Copr's Redis-coordinated concurrency layer

Copr's build system runs many independent processes that meet in Redis: they queue for a lock on a
repository, do each other's repository updates in one batch, and are started, watched and given up
by a scheduler. This project models that layer in Dafny, together with the loops it drives, and
proves what its documentation and comments promise.

`dafny verify dfyconfig.toml` checks everything.

| file | what it models |
|---|---|
| `FairLock.dfy` | the fair Redis lock as a transition system: every Redis command is one step, steps of different processes interleave, processes crash and are interrupted anywhere |
| `LockLoop.dfy` | the same lock as the loop the source has, over a mutable list, and that both agree |
| `Batch.dfy` | request batching composed with `FairLock`: post, lock, check, claim, list, read, run, mark |
| `CreaterepoMerge.dfy`, `PulpMerge.dfy` | the two merge loops `options()`, against declarative forms and against running the requests one by one |
| `PulpBatch.dfy` | both together: the batching protocol, and what its runs make of a Pulp repository |
| `JobQueue.dfy` | the heap with lazy deletion, as an ordered map |
| `Limits.dfy` | concurrency limits, their counters, and the list of limit objects of a manager |
| `FairOrder.dfy` | priorities and the fair build order |
| `WorkerLife.dfy` | one worker's Redis hash, written by manager and worker in any interleaving, the manager being restarted at any point |
| `Scheduler.dfy` | `WorkerManager` and the rounds of the dispatcher over the four files above |
| `Deliver.dfy` | `deliver_and_wait`, against a mutable server that moves its tasks on its own |
| `BuildLife.dfy` | one build with retries, every step of which may raise |
| `PipedProcess.dfy` | two reader threads, one queue, one consumer |
| `Walk.dfy` | the pruned directory walk |
| `Evr.dfy` | printing and reading epoch, version, release |
| `Tasks.dfy`, `Wrappers.dfy` | the queue task and the option type they share |

## How the systems are modelled

Redis is a set of lists and hashes; one command is one atomic step. A run is any finite
interleaving of enabled steps from the initial state, so a theorem about `Run` holds in every
reachable state. In `FairLock.dfy` and `Batch.dfy` crashes and asynchronous exceptions are steps of
their own, enabled at every point, also inside `finally`; in `WorkerLife.dfy` a restart of the
manager is, and a worker that dies stops writing. Fields of a state marked as history are written
but never read by a step; they only let theorems speak about the past. Clocks are integers that never go back. What
the outside world decides (an answer of a server, a liveness probe, the order of `KEYS`, whether a
step raises) is an arbitrary choice.

Assumptions, all about the surroundings of this code:

- A pid is not reused while a list entry or a request key names it; a dead process stays dead, and
  `kill(pid, 0)` never fails for a live one. It may still succeed for a dead one.
- A process has one `lock()` call in progress per path. The lock is not re-entrant.
- Nobody else edits these Redis keys.
- A process whose request was abandoned by an exception posts no second request while the first one
  is still in its key (`Batch.ReusedKeyHappens` shows that this is needed). Once the key is gone it may.

Nothing is assumed about a fetch of tasks. It may miss tasks that still have a worker, and does: the
frontend leaves out cancelled builds (`frontend/coprs_frontend/coprs/logic/builds_logic.py:329` and
`:402`), and a finished build is reported before its worker sets its status
(`backend/copr_backend/background_worker_build.py:1107-1112`).

## What turned out

- In the lock, the branch that pushes again when the list is empty is never reached
  (`FairLock.ProcessView`), and the notify tokens can neither admit a process nor keep it out
  (`FairLock.TokensDecideNothing`).
- No wake-up is lost unless a process dies or its `finally` is cut short; then the timeout of `blpop`
  is what helps (`FairLock.NoLostWakeup`, `FairLock.DeathLosesWakeup`).
- A process is admitted a second time by the same push only if a `finally` of its own was cut short
  before its `lrem` (`FairLock.AdmittedInOrder`).
- A Pulp batch equals its requests one by one exactly when a unit named on both sides of the batch
  is named on both sides by every request that names it (`PulpMerge.MergePreservesMeaning`).
- The docstring at `backend/copr_backend/rpm_builds.py:45-48` puts background source builds before
  RPM builds; lines 50-56 do the opposite, and the model follows the code. The classes are strictly
  ordered while priorities stay in their section, and overlap exactly as
  `FairOrder.ClassesOverlapExactly` says.
- `dispatcher.py:108-114` counts only tracked workers that the last fetch listed. A start keeps the
  limits over those (`Scheduler.AllowedStaysWithin`). It goes past a limit over all tracked workers
  exactly when that group is full already, and then a tracked worker of the group was missing from
  the last fetch (`Scheduler.StartPassesLimit`). A cancelled build whose worker still runs is enough
  (`Scheduler.CanceledBuildIsMissed`). When the fetch lists all tracked workers it cannot happen
  (`Scheduler.WorkerManager.Round`).
- A hash limit of zero also holds back tasks that belong to no group (`Limits.UngroupedTask`).
- A build is also reported as succeeded when a `KeyboardInterrupt` or `SystemExit` cuts the success
  path short, because `except Exception` does not see it (`BuildLife.BuildWorker.Conclude`,
  `BuildLife.InterruptedSuccess`).
- An assertion on an empty chunk fails exactly when a stream's limit falls between two chunks of a
  stream that goes on (`PipedProcess.RunStreams`, `PipedProcess.BoundaryInput`).
- The EVR round trip also works for negative epochs, and fails exactly when the release has a dash;
  without an epoch also when the version has a colon. With a colon in the release a wrong cut gives
  the right answer now and then: exactly for the pairs that `Evr.LuckyCut` lists
  (`Evr.EpochlessRoundTrip`, `Evr.LuckyAndUnlucky`).
- A VM ticket can stay open after a build although every release works: when `wait_ready` gives up on
  a ticket that is open, the allocation loop overwrites it (`BuildLife.LostTicket`). The tickets left
  open are exactly those (`BuildLife.BuildWorker.HandleTask`).
- A worker's status that is written after the manager has read the hash and decided to drop the
  worker never reaches `finish_task`, unless a restart makes it forget
  (`WorkerLife.LateStatusIsLost`).
- A manager that is restarted after `finish_task` and before it deletes the key calls `finish_task`
  again; the number of calls is that of such restarts plus the one that was carried through
  (`WorkerLife.FinishAtMostOnce`, `WorkerLife.FinishedAgain`).
- An entry that a live process leaves in the lock's list blocks everybody behind it until that
  process dies or releases the lock once more (`FairLock.LeftEntryBlocks`, `FairLock.EntryIsLeft`).
- When no two Pulp requests disagree about a unit, a run without failures leaves the repository as
  if the requests had been made one by one in the order of posting, whoever led which batch
  (`PulpBatch.BatchingIsInvisible`). With failures, a request whose process went on normally is still
  in effect wherever no other request opposes it, also when the server does late what a dead leader
  had sent (`PulpBatch.CompletedIsDone`).
- The sleep of `deliver_and_wait` can get shorter, only the backoff of one request cannot
  (`Deliver.SleepCanDrop`).

## Model

| member | source | states |
|---|---|---|
| FairLock.InvStep | common/copr_common/lock.py:72-109 | every step of every process, crashes and interrupts included, keeps the inductive invariant |
| FairLock.InvAlways | common/copr_common/lock.py:72-109 | the invariant holds in every reachable state |
| FairLock.MutualExclusion | common/copr_common/lock.py:50-93 | at most one live process is inside the `yield` of a path, whoever crashed or was interrupted where |
| FairLock.ProcessView | common/copr_common/lock.py:72-98 | a process inside is the head of the list; whoever is about to be removed as dead is dead; a live process has its entry from push to removal, exactly once unless its own `finally` was cut short; the head is never missing |
| FairLock.NobodyOvertaken | common/copr_common/lock.py:52-58 | when a process is inside, every earlier push was withdrawn by its own process or belongs to a dead one |
| FairLock.AdmittedInOrder | common/copr_common/lock.py:52-58 | admissions come in push order, and each push admits once unless its process skipped the removal |
| FairLock.OwnStepRanks | common/copr_common/lock.py:74-89 | with everything ahead dead, each own step enters or lowers a rank that is built on the list position |
| FairLock.OtherStepRanks | common/copr_common/lock.py:72-109 | no step of another process, crashes and interrupts included, revives what is ahead, moves a waiter in its loop, or raises its rank |
| FairLock.DeadAheadIsNoObstacle | common/copr_common/lock.py:74-89 | with everything ahead dead, every interleaving with enough own steps of the waiter, the others moving at will, reaches a state in which it is inside |
| FairLock.LiveAheadStep | common/copr_common/lock.py:72-109 | no step puts a live process ahead of a waiter, and one that dies or takes its only entry back is no longer ahead |
| FairLock.HandedOn | common/copr_common/lock.py:52-58 | in every interleaving in which each live process ahead of a waiter dies or releases, and the waiter then gets six steps for each place in the list and six more, the waiter is inside at some point |
| FairLock.LeftEntryBlocks | common/copr_common/lock.py:72-98 | the entry of a live process stays, and nobody behind it gets inside, in every schedule in which that process neither dies nor releases |
| FairLock.EntryIsLeft | common/copr_common/lock.py:72-73 | such an entry without a lock() call: an exception between the push and the `try` |
| FairLock.PositionNeverGrows | common/copr_common/lock.py:74-98 | no step of anybody moves a queued process back, except its own removal |
| FairLock.TokensDecideNothing | common/copr_common/lock.py:89-109 | with any other tokens the same schedules are possible and lead to states that differ in tokens only |
| FairLock.NoLostWakeup | common/copr_common/lock.py:74-109 | as long as nobody dies and no `finally` is cut short, the process whose turn it is never sleeps without a token, waiting for it or about to come: nobody depends on the timeout of `blpop` |
| FairLock.DeathLosesWakeup | common/copr_common/lock.py:89-109 | the failing input: a holder that dies leaves the next one asleep without a token |
| LockLoop.DropDeadShape | common/copr_common/lock.py:83-87 | the waiting loop removes exactly a prefix of dead strangers |
| LockLoop.InsideIffAheadDead | common/copr_common/lock.py:80-87 | the loop ends inside if and only if everybody ahead is dead |
| LockLoop.SharedList.WaitTurn | common/copr_common/lock.py:74-89 | the loop terminates, leaves the list without that prefix, and tells whether the process is at its head |
| LockLoop.LoopIsDrive | common/copr_common/lock.py:74-89 | the loop is the transition system with only one process moving: same list, same pushes, inside in the same cases, else about to block |
| LockLoop.ReleaseIsFinally | common/copr_common/lock.py:95-109 | the release is what the single steps of `finally` add up to |
| LockLoop.TurnThenRelease | common/copr_common/lock.py:74-98 | entering and leaving leaves exactly the list behind the own entry |
| Batch.InvStep | backend/copr_backend/createrepo.py:86-120 | every Redis step of the protocol, interleaved with lock steps, keeps its invariant |
| Batch.OtherKeys | backend/copr_backend/createrepo.py:210-221 | a process never deletes another one's key nor changes its task; it marks it only from inside the lock |
| Batch.ProcessedMeansServed | backend/copr_backend/pulp.py:107-134 | whenever `check_processed()` said True, another process had read exactly that request and its run had returned normally |
| Batch.LeaderView | backend/copr_backend/pulp.py:214-248 | from the locked check to the commit nobody else is inside, and a flag goes only to a request this leader read, after its run, while that request is still in the key |
| Batch.OwnKeyNeverListed | backend/copr_backend/createrepo.py:150-151 | the assertion that the own key is not listed never fires |
| Batch.NoKeyError | backend/copr_backend/createrepo.py:153-172 | a hash that is not empty has a task, also with the unlocked early delete |
| Batch.CompletedWasRun | backend/copr_backend/pulp.py:214-248 | a process that went on normally had its request run at least once, whatever failed elsewhere |
| Batch.NoneLostStep | backend/copr_backend/createrepo.py:86-120 | in a run without crash and exception a posted request is in hand of its own process until that process goes on normally |
| Batch.ExactlyOnce | backend/copr_backend/createrepo.py:26-40 | in such runs no request runs twice, and one that its process is no longer busy with ran exactly once, run by it or by a leader |
| Batch.AllRunOnce | backend/copr_backend/createrepo.py:26-40 | when such a run has come to rest, every request ever posted ran exactly once |
| Batch.ReusedKeyLooksProcessed | backend/copr_backend/createrepo.py:86-91 | a second request under an abandoned key can look processed although nobody read it |
| Batch.ReusedKeyHappens | backend/copr_backend/createrepo.py:86-120 | the state it takes is reached by a run, for any two processes |
| CreaterepoMerge.BatchedCreaterepo.Options | backend/copr_backend/createrepo.py:122-208 | the loop returns the declarative merge of the eligible requests in listing order up to the batch limit; each key it plans to notify is listed with a task, without status, and with the leader's devel and appstream values, and such a key is left out only when the batch is full; a full run adds nothing |
| CreaterepoMerge.EligibleExactly | backend/copr_backend/createrepo.py:153-187 | a request is eligible iff it is listed with a task and without status, and its devel and appstream values are the leader's |
| CreaterepoMerge.BatchSize | backend/copr_backend/createrepo.py:203-206 | a fresh leader takes at most MAX_IN_BATCH - 1 others |
| CreaterepoMerge.MergedStep | backend/copr_backend/createrepo.py:189-201 | one loop body adds one request to the declarative merge: once full, add stays empty |
| CreaterepoMerge.MergedExactly | backend/copr_backend/createrepo.py:189-201 | name by name, what is reported of the chosen requests: every deletion and removal, every addition unless one of them is full |
| CreaterepoMerge.LedExactly | backend/run/copr-repo:314-346 | name by name, what the run of a leader does: full drops additions, deletions win over them, whichever request of the batch asked |
| CreaterepoMerge.MainLocked | backend/run/copr-repo:322-346 | the leader's own options joined with the batch: deletions win over additions, full drops additions |
| CreaterepoMerge.LeadBatch | backend/run/copr-repo:314-346 | the command a fresh leader runs for itself and the chosen others |
| CreaterepoMerge.OrderDoesNotMatter | backend/copr_backend/createrepo.py:150-201 | the merge does not depend on the order in which keys are enumerated |
| CreaterepoMerge.LedIsJoint | backend/run/copr-repo:322-346 | leading a batch gives the command that serves the own request and all others alike |
| CreaterepoMerge.LeaderDoesNotMatter | backend/copr_backend/createrepo.py:26-40 | whichever of the requests leads, the same command comes out |
| PulpMerge.BatchedAddRemoveContent.Options | backend/copr_backend/pulp.py:136-199 | add and remove are the two unions without their common part, directories the union, and exactly the chosen keys will be notified |
| PulpMerge.ChosenExactly | backend/copr_backend/pulp.py:154-185 | exactly the listed keys with a task and without status join, up to the first with more than 10000 units |
| PulpMerge.SentExactly | backend/copr_backend/pulp.py:187-199 | unit by unit what is added and removed, and directory by directory what is deleted |
| PulpMerge.LastSayDecides | backend/copr_backend/pulp.py:193-195 | one by one, the last request with a say about a unit decides on it |
| PulpMerge.LastSayIsSaid | backend/copr_backend/pulp.py:193-195 | that last say is the wish of one of the requests, and there is none only if no request has a say |
| PulpMerge.MergePreservesMeaning | backend/copr_backend/pulp.py:187-199 | the batch equals its requests one by one on every content iff units on both sides of the batch are on both sides of each request naming them |
| PulpMerge.DisagreementShows | backend/copr_backend/pulp.py:193-195 | otherwise the difference shows on the empty content or on the content of that unit |
| PulpMerge.OneSidedRequests | backend/copr_backend/pulp.py:187-195 | for one-sided requests the condition is that no unit is both added and removed |
| PulpMerge.OrderDoesNotMatter | backend/copr_backend/pulp.py:187-195 | the batch, its meaning, and under the condition any one-by-one order, depend on which requests joined only |
| PulpMerge.ListingOrderDoesNotMatter | backend/copr_backend/pulp.py:151-195 | without an oversized pending request, which requests join and what is sent do not depend on the listing order |
| PulpMerge.OversizedCutsOff | backend/copr_backend/pulp.py:175-182 | with one, the same two keys listed in the other order give another batch |
| PulpMerge.BothSidesKeep | backend/copr_backend/pulp.py:192-195 | the sides sent are disjoint, and a unit on both keeps its membership |
| PulpBatch.ProtocolIsFree | backend/copr_backend/pulp.py:207-238 | the repository holds no process up: each step of the protocol is possible together with its effect on the repository |
| PulpBatch.LedOnce | backend/copr_backend/pulp.py:154-198 | a run names each request it covers once |
| PulpBatch.LoggedAlways | backend/copr_backend/pulp.py:207-248 | in every reachable state the log of runs names each request as often as it ran; as long as nothing crashed or raised, the repository is what these runs made of it |
| PulpBatch.MergedIsAll | backend/copr_backend/pulp.py:187-199 | batches none of which disagrees with itself add up to their requests one by one |
| PulpBatch.BatchesPartition | backend/copr_backend/pulp.py:207-248 | when a run without failures has come to rest, its batches divide up all requests ever posted, each in one batch, once; so without disagreement inside a batch the content is that of the requests one by one in the order of the batches |
| PulpBatch.BatchingIsInvisible | backend/copr_backend/pulp.py:187-248 | when no two requests disagree, the content is that of the requests one by one in the order of posting, whatever the interleaving, the leaders and the batches |
| PulpBatch.EffectKeeps | backend/copr_backend/pulp.py:187-229 | the effect of any batch, in time or late, undoes no request that no other one opposes |
| PulpBatch.CompletedIsDone | backend/copr_backend/pulp.py:207-248 | whatever crashes or raises, and whether or when a run that was cut short takes effect: once the process of a request went on normally, what it adds is in the repository and what it removes is not, for good, unit by unit as far as no request is for the opposite |
| JobQueues.RootIsLeast | common/copr_common/worker_manager.py:174-202 | in a heap nothing is smaller than the root |
| JobQueues.HeapPush | common/copr_common/worker_manager.py:186 | pushing keeps the heap and adds exactly the entry |
| JobQueues.HeapPop | common/copr_common/worker_manager.py:202 | popping keeps the heap and removes exactly a least entry |
| JobQueues.CountsDiffer | common/copr_common/worker_manager.py:177-184 | entries never tie, so tasks are never compared |
| JobQueues.ClearShape | common/copr_common/worker_manager.py:196-197 | overwriting a task in place leaves the heap order alone |
| JobQueues.Unlink | common/copr_common/worker_manager.py:192-197 | removal by id drops exactly that task, and dictionary and heap stay one-to-one |
| JobQueues.LeastIsFirst | common/copr_common/worker_manager.py:199-205 | a least entry that is no placeholder holds the first live task by priority and arrival |
| JobQueues.JobQueue.AddTask | common/copr_common/worker_manager.py:179-186 | adding, or adding again, maps the id to the new priority and a fresh number |
| JobQueues.JobQueue.RemoveTaskById | common/copr_common/worker_manager.py:192-197 | removal drops the id, and fails exactly when it is not there |
| JobQueues.JobQueue.PopTask | common/copr_common/worker_manager.py:199-206 | pops the first live task, and fails exactly when there is none |
| Limits.AddedCovers | common/copr_common/worker_manager.py:86-89 | counting a worker, once or again, keeps every counter at least as high as its group is large |
| Limits.RemovedCovers | common/copr_common/worker_manager.py:495-497 | a worker that ends leaves the counters high enough |
| Limits.ClearedCoversNobody | common/copr_common/worker_manager.py:147-149 | a cleared limit covers the empty set of workers, and keeps its rule |
| Limits.CoversCounts | common/copr_common/worker_manager.py:91-94 | a covering counter bounds the size of the group |
| Limits.CheckedStartStaysWithin | common/copr_common/worker_manager.py:157-159 | a start that passed the check leaves its group within the limit |
| Limits.ClearedIsExact | common/copr_common/worker_manager.py:147-149 | a cleared limit counts exactly nobody |
| Limits.AddedIsExact | common/copr_common/worker_manager.py:151-155 | counting a worker that was not counted before keeps every counter exact |
| Limits.ExactCheck | common/copr_common/worker_manager.py:157-159 | over exact counters the check passes iff the group has room: neither too strict nor too lax |
| Limits.UngroupedTask | common/copr_common/worker_manager.py:157-159 | a task without a group is held back exactly by a hash limit that is not positive |
| Limits.StringCounter.Add | common/copr_common/worker_manager.py:111-118 | counts one more, and nothing for None |
| Limits.CountsOccurrences | common/copr_common/worker_manager.py:104-122 | after any additions every string counts as often as it was added, and None counts 0 |
| Limits.PredicateWorkerLimit.WorkerAdded | common/copr_common/worker_manager.py:86-89 | the object follows the specification of counting |
| Limits.PredicateWorkerLimit.Check | common/copr_common/worker_manager.py:91-94 | the object follows the specification of the check |
| Limits.HashWorkerLimit.WorkerAdded | common/copr_common/worker_manager.py:151-155 | the object and its counter follow the specification of counting |
| Limits.HashWorkerLimit.Check | common/copr_common/worker_manager.py:157-159 | the object follows the specification of the check |
| Limits.LimitList.WorkerAdded | common/copr_common/worker_manager.py:365-367 | the worker is counted in each limit object of the list, once, and no object disturbs another |
| Limits.LimitList.Check | common/copr_common/worker_manager.py:461-469 | the loop answers whether every limit allows the task |
| Limits.LimitList.Clear | common/copr_common/worker_manager.py:492-493 | every limit object is cleared, with a new counter of its own |
| Limits.BuildLimits | backend/copr_backend/daemons/build_dispatcher.py:85-117 | the limit objects of the build dispatcher, made from its configuration in the order of its constructor |
| Limits.BlockedOwnersNeverPass | backend/copr_backend/daemons/build_dispatcher.py:110-111 | under these limits no task of a blocked owner passes, whatever was counted |
| Limits.BlockedNeverStarts | backend/copr_backend/rpm_builds.py:140-147 | a task passes the blocked-owners limit iff its owner is not blocked |
| Limits.ArchOwnerGroups | backend/copr_backend/rpm_builds.py:150-161 | on the limited architecture the groups are exactly the owners |
| Limits.UserSshCheck | backend/copr_backend/rpm_builds.py:170-186 | with exact statistics a build with user SSH passes iff its owner has fewer such builders than the limit; source builds and others do not count |
| Limits.TagCheck | backend/copr_backend/rpm_builds.py:189-196 | with exact statistics a task with the tag passes iff fewer such tasks run than the limit |
| Limits.SandboxCheck | backend/copr_backend/daemons/build_dispatcher.py:98-106 | with exact statistics a task passes iff fewer tasks of its sandbox run than the limit |
| Limits.DispatcherPasses | backend/copr_backend/daemons/build_dispatcher.py:85-117 | with exact statistics a task passes all limits of the configuration iff there is room by architecture, tag, owner on the architecture, sandbox, owner and user SSH, each written out by the attributes of the running tasks, and its owner is not blocked |
| FairOrder.PriorityCounter.GetPriority | backend/copr_backend/daemons/build_dispatcher.py:64-75 | the counter of the group, from 1; it is advanced for exactly the tasks with the same background flag, owner, sandbox and architecture, a missing architecture being "srpm" |
| FairOrder.GroupsExactly | backend/copr_backend/daemons/build_dispatcher.py:64-75 | two tasks share a counter iff they are equal in background flag, owner, sandbox and architecture |
| FairOrder.RankCounts | backend/copr_backend/daemons/build_dispatcher.py:64-75 | the rank is that number, counted over the fetch |
| FairOrder.FrontendTasks | backend/copr_backend/daemons/build_dispatcher.py:130-136 | each fetched task gets the number of tasks up to it in the fetch that are equal in these four attributes |
| FairOrder.RanksAreDense | backend/copr_backend/daemons/build_dispatcher.py:72-75 | the ranks of a group are 1, 2, 3 and so on without a gap |
| FairOrder.PopIsFair | common/copr_common/worker_manager.py:199-206 | the popped task is ranked no higher than any comparable one that stays, ties going by arrival |
| FairOrder.PopsAreFirst | common/copr_common/worker_manager.py:199-206 | every pop of a row of pops takes the first of what is left then |
| FairOrder.PopsAreFair | backend/copr_backend/daemons/build_dispatcher.py:53-61 | each of a row of pops goes in fair order before everything not popped until then, popped later or left in the queue: no (k+1)-th task of a group before a comparable k-th, and no worse class before a better one within the sections |
| FairOrder.ClassesOverlapExactly | backend/copr_backend/rpm_builds.py:50-56 | when a task of a worse class goes first, in numbers, and that this cannot happen within the sections |
| FairOrder.ClassOrder | backend/copr_backend/rpm_builds.py:50-56 | background builds are of a worse class than all others; among builds alike in that, source builds are of the better one |
| FairOrder.FirstIsOfBestClass | backend/copr_backend/rpm_builds.py:50-56 | within the sections the first task is of the best class left: source, RPM, background source, background RPM builds |
| WorkerLife.InvStep | common/copr_common/worker_manager.py:499-561 | every Redis command of manager and worker, and every restart of the manager, keeps the invariant of the handshake |
| WorkerLife.ExitsAreJustified | common/copr_common/worker_manager.py:516-561 | a worker left only after finish_task for this start, without an allocation, unstarted for too long, or found dead in an earlier round and still without status |
| WorkerLife.LeavingIsRecorded | common/copr_common/worker_manager.py:495-497 | a tracked worker disappears only by such an exit, or when a restarted manager does not find its key any more |

| WorkerLife.FinishAtMostOnce | common/copr_common/worker_manager.py:531-536 | finish_task is called for a start as often as a restart came between the call and the deletion, and at most once more; exactly once more if the worker left as finished |
| WorkerLife.FinishedAgain | common/copr_common/worker_manager.py:271-276 | the failing input: any number of calls for one start, with as many restarts |
| WorkerLife.StatusWinsOverMark | common/copr_common/worker_manager.py:531-541 | over whole runs: once the status is written while no reading is in hand, the next exit is the finish of this allocation, marked dead or not, unless the worker deletes its key |
| WorkerLife.LateStatusIsLost | common/copr_common/worker_manager.py:529-548 | the other half: once a reading decided to drop the worker, and no restart forgets it, finish_task is never called for this allocation |
| WorkerLife.DecidesExactly | common/copr_common/worker_manager.py:516-561 | field by field when a worker is given up, finished, looked for, or left alone: without allocation, ended, marked, or not started within 30 seconds; not looked for within 180 seconds |
| Scheduler.AddedAllCover | common/copr_common/worker_manager.py:365-367 | counting a worker in every limit keeps all of them covering |
| Scheduler.AllowedStaysWithin | common/copr_common/worker_manager.py:461-485 | after a start that every limit allowed, no limit is exceeded in a group of the task, among the workers that the statistics count |
| Scheduler.StartPassesLimit | common/copr_common/worker_manager.py:461-485 | over all tracked workers, such a start exceeds a limit iff the group was full already; then a tracked worker of the group is not among those counted |
| Scheduler.OverAllIsMissed | common/copr_common/dispatcher.py:108-114 | so it needs a tracked worker that the last fetch missed, and never happens when it missed none |
| Scheduler.CanceledBuildIsMissed | frontend/coprs_frontend/coprs/logic/builds_logic.py:329 | the failing input: one build per owner, the first one cancelled but still tracked, the second one fetched and started |
| Scheduler.AddedAllExact | common/copr_common/worker_manager.py:365-367 | counting a worker that was not counted keeps all statistics exact |
| Scheduler.PassesIffRoom | common/copr_common/worker_manager.py:461-469 | with exact statistics a task passes iff each of its groups has room: neither too strict nor too lax |
| Scheduler.WorkerManager.AddTask | common/copr_common/worker_manager.py:372-388 | a tracked task is only counted, any other one is queued with its priority; nothing is done to a worker; exact statistics stay exact when the task was not counted yet |
| Scheduler.WorkerManager.CancelTaskId | common/copr_common/worker_manager.py:390-411 | the task leaves the queue; exactly a worker with a key in Redis gets the cancel request, and that is the answer |
| Scheduler.WorkerManager.CleanTasks | common/copr_common/worker_manager.py:487-493 | an empty queue and cleared limits that count exactly nobody, the tracked workers stay |
| Scheduler.WorkerManager.StartWorker | common/copr_common/worker_manager.py:478-485 | never for a tracked or queued task; marked allocated, then started; one more worker that is tracked and counted, in exact statistics if they were; over no limit when all tracked workers are counted |
| Scheduler.WorkerManager.CleanupWorkers | common/copr_common/worker_manager.py:499-561 | a pass at least one period after the last one, at a time between call and return; by the fields of each hash found: without allocation, with a status, marked, or not started for more than 30 seconds the worker goes, with finish_task for a status; started and not looked for within 180 seconds it is looked for, and marked iff not alive; nothing else is done to anybody; what the limits cover stays covered |
| Scheduler.ActsExactly | common/copr_common/worker_manager.py:516-561 | what is done in a pass is what is due to some worker found, field by field, and nothing else |
| Scheduler.GivenUpExactly | common/copr_common/worker_manager.py:516-548 | who is given up in a pass, field by field |
| Scheduler.ActsAreSteps | common/copr_common/worker_manager.py:516-561 | what is done to one worker is what the steps of WorkerLife do to its key: same hash, same giving up, same call of finish_task |
| Scheduler.WorkerManager.DeleteWorker | common/copr_common/worker_manager.py:495-497 | exactly this worker goes, and every limit still covers the others |
| Scheduler.WorkerManager.Turn | common/copr_common/worker_manager.py:433-473 | each turn leaves when the time is up or nothing is queued and nobody works, or pops the first task, which is started iff every limit allows it, or waits for a reason; it sweeps when the last sweep is three seconds ago; what is done to workers is what the sweep and the start call for |
| Scheduler.WorkerManager.TryNext | common/copr_common/worker_manager.py:441-473 | after the cleanup: the first task is popped iff one is queued and a slot is free; otherwise a wait, or the end when nobody works |
| Scheduler.WorkerManager.Run | common/copr_common/worker_manager.py:419-476 | terminates, and not before the time is up or everything is done; no turn is after the time, none waits while a task is queued and a slot is free, and the first one sweeps; queue and tracked workers stay disjoint, the worker count bounded; no start exceeds a limit over the workers counted, nor over all tracked ones unless one of the group is not counted; tasks leave in priority order and only popped ones start, in that order |
| Scheduler.LoggedNeverIdle | common/copr_common/worker_manager.py:441-459 | if a task is still queued at the end, every wait of the run was for a slot |
| Scheduler.WorkerManager.StartIfAllowed | common/copr_common/worker_manager.py:461-473 | a popped task is started iff every limit allows it; within the limits over all tracked workers when all are counted |
| Scheduler.WorkerManager.Fill | common/copr_common/dispatcher.py:112-114 | after the fill, the limits cover the tracked workers that the fetch lists, and count them exactly if it lists no task twice; the queue holds the others with their ranks |
| Scheduler.WorkerManager.Refill | common/copr_common/dispatcher.py:108-114 | the same from any earlier state for any fetch that is not empty; an empty fetch changes nothing |
| Scheduler.WorkerManager.CancelAll | common/copr_common/dispatcher.py:117-119 | exactly the cancelled ids leave the queue, and exactly those with a key in Redis get the cancel request |
| Scheduler.CancelsExactly | common/copr_common/worker_manager.py:390-411 | which cancel requests are written |
| Scheduler.RoundIsFair | common/copr_common/worker_manager.py:447-451 | of a filled queue, each popped task goes in fair order before those popped later and those still queued |
| Scheduler.RoundOutcome | common/copr_common/dispatcher.py:103-125 | the same after cancellations; nothing cancelled is popped, and nothing else is lost |
| Scheduler.FairOnwards | backend/copr_backend/daemons/build_dispatcher.py:53-61 | rounds that go on popping the same fetch pop it in fair order as if they were one |
| Scheduler.NewStartsJoin | common/copr_common/worker_manager.py:447-473 | what two runs start one after the other is among what they pop, in that order |
| Scheduler.WorkerManager.Round | common/copr_common/dispatcher.py:103-125 | a whole cycle, with any fetch, keeps all this; its pops go in the fair order of the last fetch that was not empty, be it this one or an earlier one, before one another and before what it leaves queued, leave out what was cancelled, and lose no task; it does not wait while a task is left and a slot is free; when the statistics miss no tracked worker, no limit over all of them is exceeded |
| Scheduler.WorkerManager.Dispatch | common/copr_common/dispatcher.py:102-130 | what a round needs, the one before leaves, for any number of rounds: all starts ever made are in order and among the pops in their order; everything popped since the last fetch that was not empty, over however many rounds, goes in the fair order of that fetch |
| Deliver.BackoffBounds | backend/copr_backend/pulp.py:753-754 | the backoff after any number of failures is in 5 to 300 seconds and does not decrease with another one |
| Deliver.BackoffIs | backend/copr_backend/pulp.py:753-754 | 5, 10, 20, 40, 80, 160 seconds, then 300 |
| Deliver.SleepCanDrop | backend/copr_backend/pulp.py:757-758 | the sleep itself, the largest backoff still pending, can drop when the slowest request is resolved |
| Deliver.Advance | backend/copr_backend/pulp.py:728-754 | one element of the todo-list: one call to the server; a submission iff there is no task; without a task again only after that task failed, with the backoff doubled up to 300; the kept task is the one submission that did not fail; only this request is touched |
| Deliver.AccountedKeep | backend/copr_backend/pulp.py:734-754 | an element that is kept leaves every request resolved or pending exactly once |
| Deliver.AccountedResolved | backend/copr_backend/pulp.py:731-749 | an element that is resolved leaves every request resolved or pending exactly once |
| Deliver.Pass | backend/copr_backend/pulp.py:726-756 | one pass asks once for each pending request, and loses and duplicates nothing |
| Deliver.SleepBounds | backend/copr_backend/pulp.py:757-758 | every sleep of the loop is between 5 and 300 seconds |
| Deliver.DeliverAndWait | backend/copr_backend/pulp.py:703-760 | on normal return result i is the answer to a submission of request i, and all its other submissions failed; no pass starts after the deadline; every pass that left something is followed by a sleep of the largest backoff among that; a timeout is reported only after the deadline, an HTTP error iff the client raised |
| BuildLife.BuildWorker.DropHost | backend/copr_backend/background_worker_build.py:385-395 | no host afterwards and its ticket closed, unless the release itself raised |
| BuildLife.BuildWorker.AllocTurn | backend/copr_backend/background_worker_build.py:466-484 | one turn of the allocation loop: a new ticket takes the place of the one in hand, open or not, and what becomes of it is recorded |
| BuildLife.BuildWorker.AllocHost | backend/copr_backend/background_worker_build.py:458-484 | over any number of turns the open tickets are the overwritten ones and the one in hand |
| BuildLife.NothingOverwritten | backend/copr_backend/vm_alloc.py:69-117 | no ticket is overwritten iff none was given up open with another one asked for next |
| BuildLife.LostTicket | backend/copr_backend/vm_alloc.py:82-117 | the failing input: a ready ticket with unreadable data stays open for good although every release works |
| BuildLife.BuildWorker.MarkRunning | backend/copr_backend/background_worker_build.py:285-303 | the start is announced on the first attempt only |
| BuildLife.BuildWorker.SuccessSteps | backend/copr_backend/background_worker_build.py:1041-1053 | the steps of the success path in order, up to the first that raises, which is what ends it |
| BuildLife.BuildWorker.Conclude | backend/copr_backend/background_worker_build.py:1038-1063 | the path is walked up to the first step that raises; succeeded iff that is the whole of it, or an interrupt ended it after the success file was seen |
| BuildLife.InterruptedSuccess | backend/copr_backend/background_worker_build.py:1038-1063 | the failing input: an interrupt during the upload, and the build counts as succeeded |
| BuildLife.NothingUnsigned | backend/copr_backend/background_worker_build.py:1041-1053 | nothing is uploaded unsigned where signing is asked for, no repository is made before the upload, and the job is updated after both |
| BuildLife.BuildWorker.Build | backend/copr_backend/background_worker_build.py:999-1063 | one attempt: success is earned by the log of an attempt, the start is announced in full by a first attempt that gets that far and by no other; its end is logged, and the host in hand when it ends in BuildRetry or SSHConnectionError |
| BuildLife.BuildWorker.RetryTheBuild | backend/copr_backend/background_worker_build.py:1065-1085 | every end but the last is a BuildRetry or SSHConnectionError; the last one is passed on if it is neither; otherwise, unless the release raises or no host was in hand, it goes on, or gives up iff the ended attempts name three hosts; the start is announced at most once over all retries |
| BuildLife.BuildWorker.MarkFinished | backend/copr_backend/background_worker_build.py:305-320 | any state but succeeded is reported as failed |
| BuildLife.BuildWorker.HandleTask | backend/copr_backend/background_worker_build.py:1087-1112 | if releasing does not raise, no host is in hand at the end, the tickets still open are exactly the overwritten ones, and a job that was obtained ended and was reported once; succeeded only when earned, and always when the last attempt returned |
| PipedProcess.PipeConsumerThread | common/copr_common/subprocess_live_output.py:22-65 | a reader passes on exactly the bytes up to its limit, one item for each read, quiet ones included; it says "cut" iff there were more, and puts an empty chunk iff the limit falls on a chunk boundary |
| PipedProcess.LimitedExactly | common/copr_common/subprocess_live_output.py:48-58 | up to the limit: a prefix, and as long as the limit admits |
| PipedProcess.QueueCarries | common/copr_common/subprocess_live_output.py:124-136 | in every interleaving the queue carries each stream unchanged |
| PipedProcess.SecondIsLast | common/copr_common/subprocess_live_output.py:143-146 | the second sentinel is the last element of the queue |
| PipedProcess.ReasonsAreReal | common/copr_common/subprocess_live_output.py:147-165 | "cut" and "error" are among the reasons iff some reader said so |
| PipedProcess.TimeoutsAreReal | common/copr_common/subprocess_live_output.py:147-149 | "timeout" is among the reasons iff the time was up at some item |
| PipedProcess.FirstReasonExactly | common/copr_common/subprocess_live_output.py:143-165 | the stop reason is the trouble of the first item in trouble; being late comes before what the item says |
| PipedProcess.PosixPipedProcess.Stop | common/copr_common/subprocess_live_output.py:104-111 | the first reason other than EOF is kept, and the process is killed |
| PipedProcess.PosixPipedProcess.ReadChunks | common/copr_common/subprocess_live_output.py:143-165 | the loop ends after two sentinels with the queue empty, having yielded all of it, or stops at the first empty chunk |
| PipedProcess.RunStreams | common/copr_common/subprocess_live_output.py:113-171 | threads and consumer together: each stream up to its limit, a prefix of it if the assertion fails, which it does iff a limit falls on a chunk boundary; the process ended by itself iff nothing was cut or broken and no item of the queue was late |
| PipedProcess.BoundaryInput | common/copr_common/subprocess_live_output.py:51-58 | an input on which it fails: two chunks of one byte under a limit of one |
| Walk.DepthCounts | common/copr_common/tree.py:16-20 | the depth read off the relative path is the number of its components |
| Walk.ForestIsDeeper | common/copr_common/tree.py:22-29 | below a directory everything is deeper |
| Walk.WalkLimited | common/copr_common/tree.py:8-31 | yields exactly the plain walk filtered by depth, in order, with unpruned name lists, and enters nothing below maxdepth |
| Walk.FilteredExactly | common/copr_common/tree.py:22-31 | a directory is yielded iff the plain walk meets it, the root or at most at maxdepth, and not above mindepth |
| Walk.YieldedExactly | common/copr_common/tree.py:8-31 | a directory is yielded iff the names of its path lead to it in the tree and its depth is between the two; it shows all its names and files |
| Walk.NoLimits | common/copr_common/tree.py:8-14 | without limits it is the plain walk |
| Evr.DecimalReads | backend/copr_backend/helpers.py:659-661 | the decimal form of a number is digits that read back as that number |
| Evr.ParseIntStr | backend/copr_backend/rpmeta.py:77-80 | reading undoes printing for every integer, and no printed integer has a colon |
| Evr.ParseIntExactly | backend/copr_backend/rpmeta.py:77-80 | exactly the texts that are read as a number: white space, at most one sign, grouped digits, white space |
| Evr.VersionBack | backend/copr_backend/rpmeta.py:82 | cutting at the last dash gives the version iff the release has no dash |
| Evr.LeftOver | backend/copr_backend/rpmeta.py:82 | cutting at the last dash leaves this version iff the text is the version without a dash, or goes on with a dash and then has none |
| Evr.NothingToSplit | backend/copr_backend/rpmeta.py:70-83 | nothing at all is read as (0, "0"), a text without separators as its own version |
| Evr.ShiftedVersion | backend/copr_backend/rpmeta.py:75-83 | with the first colon in the version, the version comes back iff it repeats itself shifted behind that colon and the release has its last dash there |
| Evr.EpochFirst | backend/copr_backend/rpmeta.py:75-83 | what stands before the first colon is read as the epoch |
| Evr.IntegerRoundTrip | backend/copr_backend/helpers.py:654-662 | for every integer epoch the round trip succeeds iff the release has no dash |
| Evr.DigitsRoundTrip | backend/copr_backend/helpers.py:654-662 | an epoch of digits comes back as their number iff the release has no dash |
| Evr.EpochlessRoundTrip | backend/copr_backend/rpmeta.py:61-83 | without an epoch: if the release has no colon, iff the version has no colon and the release no dash; if it has one, iff what the cuts leave over is the version, spelled out for both places of the first colon |
| Evr.LuckyAndUnlucky | backend/copr_backend/rpmeta.py:75-83 | two inputs that read alike: with a colon in the release the answer is right for one and wrong for the other |

## Left out

- Redis itself, HTTP, ssh, resalloc, git, gpg, the frontend and the file system: they are atomic steps or arbitrary answers.
- The expiry of notify keys and the duration of `blpop`: a token may be lost, and a wait may end, at any moment anyway.
- Logging, process titles, queue dumps, configuration, the command line.
- FairLock.HandedOn: progress is proved when every live process ahead dies or releases; that it does so in the end is up to the callers and their schedule.
- Batch.AllRunOnce: says what holds when a run has come to rest; that every run comes to rest is the progress of the lock, see the line before.
- The repository run itself (`run_createrepo`, `delete_builds`, the Pulp calls): one step that returns or raises. A run that decides to do nothing counts as one that returned.
- `noop` requests: they take part in `options()` only, since they never touch Redis.
- PulpMerge.BatchedAddRemoveContent.Options: no bound on the total size of a batch is claimed, because the limit is per request; deleting the merged directories is not modelled, and no claim is made that each is deleted once.
- JobQueues.JobQueue: an entry is a number that heap and dictionary share instead of a list object they share; the sift of `heapq` is written in its textbook form.
- Scheduler.WorkerManager.Run: the timeout is finite; the default of the source is infinite.
- Scheduler.WorkerManager.Dispatch: finitely many rounds of the endless loop; the sleep at the end of a round is not modelled.
- PulpBatch.BatchingIsInvisible: runs without a crash or an exception only; what holds with them is CompletedIsDone.
- Scheduler.WorkerManager.CleanupWorkers: what each Redis hash says, and whether a process is alive, is arbitrary here; WorkerLife follows one hash in detail. A key that the worker itself deleted leaves its id tracked, in the model as in the source.
- WorkerLife.ExitsAreJustified: says when finish_task is called, not that it succeeded, as its answer is ignored; nor that one process runs per task, as the answer of `_wm_started` is ignored.
- FairOrder.PriorityCounter.GetPriority: the nested dictionaries are one map from paths to counts.
- Deliver.DeliverAndWait: nothing is claimed about how long the server takes; an exception of the HTTP client ends the call.
- BuildLife.BuildWorker.RetryTheBuild: retries on one or two host names may go on for ever, so the model gives up after `patience` attempts, for every `patience`; a start that fails before `_mark_running` is never announced, as in the source.
- BuildLife.BuildWorker.Prepare: only its outcome and what it does to the tickets; that a cancel request is looked for at these two places is not claimed.
- PipedProcess.PipeConsumerThread: `select` and `read1` do not raise; a caller that stops reading early is not modelled.
- Evr: digits, signs and white space are those of ASCII, and the length limit of Python's integer conversion is not modelled.
- Counting of build hits, list splitting, request redirects, messaging, the web frontend.
