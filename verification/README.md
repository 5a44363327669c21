# snowpatch: the queue protocol, verified

snowpatch takes patch series from Patchwork, applies and pushes them with git, lets a CI system run
on the pushed branches, and posts the results back as checks. Its actors are one watchcat, one
ingest loop, a pool of git threads, one job watcher per runner, one completion watcher per started
series and one dispatcher. They talk only through named persistent trees:

    seen by watchcat
    needs testing -> awaiting git worker -> git worker i -> git failures, or done by git
                                                 |
                                                 v   (once per remote)
                                      github queue -> github working -> needs dispatch -> check

This project models those actors as one labelled transition system with an explicit program counter
wherever another actor can run in between, and a crash step that wipes everything but the trees, and
proves what holds over every interleaving. The loops inside the actors are modelled a second time as
methods over the trees and are proved to do what their actor does in the transition system: all these
refinements are stated over one relation, `Trees.Represents`, which names every tree.
`dafny verify dfyconfig.toml` checks everything.

## Where things are

| file | content |
|---|---|
| `Basics.dfy` | ids, results, the configuration |
| `Codec.dfy` | dispatch keys, decimal ids, check contexts |
| `GitHub.dfy` | the reading of workflow runs as job results |
| `Intake.dfy` | watchcat, ingest loop and git threads as a transition system, with its invariant |
| `Ci.dfy` | job watchers and completion watchers likewise |
| `Outbox.dfy` | the dispatcher likewise |
| `Protocol.dfy` | the three side by side, crashes, runs, and the invariants over whole runs |
| `Guarantees.dfy` | the safety theorems |
| `Reach.dfy` | runs that bring the system to a given point |
| `Sharing.dfy` | exactly what shared handles break |
| `Blind.dfy` | exactly what failed look-ups of the watchcat break |
| `Drain.dfy` | the measure, absence of deadlock, and exactly when the pipeline empties |
| `Delivery.dfy` | when it has emptied, every finished result has arrived and every series is settled |
| `Stale.dfy` | exactly when a git task gets past the wait for its own tree |
| `Wakeup.dfy` | the wait on a tree, for any consumer |
| `Waiting.dfy` | the wait of each of the three loops, composed with the whole system |
| `Database.dfy`, `Scan.dfy`, `Ingesting.dfy`, `GitWork.dfy`, `Watching.dfy`, `Dispatching.dfy` | the loops of the actors as methods over the trees |
| `Trees.dfy` | the trees by name, and when they are those of a state of the transition system |
| `Refinement.dfy` | the completion watcher, the dispatcher's round and the git task are runs of the transition system |
| `PassRefinement.dfy`, `ScanRefinement.dfy` | so are the passes of the ingest loop, the job watcher and the scan |

In each of the three parts `Enabled` and `Apply` are the steps. A step that the source guards by an
error return is not enabled when the error would occur; where the error is then shown impossible,
`Guarantees.ErrorBranchesUnreachable` and `Guarantees.MovesFindTheirKey` say so.
Fields marked as history are written by the steps and read by no guard.

## What is taken as given

- A tree transaction is atomic and durable, and its change reaches subscribers with it. `Conflict`
  inside a transaction means that it is tried again, so a move is a step guarded by the presence of
  its key; `Database.Db.MoveToNewQueue` is one attempt. A database call that is an error has changed
  nothing.
- An iterator yields only keys that are present at that moment, and every key that was there from
  its beginning and not removed.
- A thread of the git pool runs one spawned task at a time. The worktree of a thread is named after
  its index, so one task per thread is one task per worktree.
- A Patchwork series list has distinct ids, the patch list of a series does not change, and the
  server never drops a check. The answer to the question which checks a patch has is complete: it is
  read from one page, and a check on a later one would not be found. Others may add checks at any
  time. One snowpatch runs at a time, and a post has taken effect by the time its call returns, with
  or without an error, or never will.
- An error or panic in the watchcat, the ingest loop, a job watcher, a completion watcher or the
  dispatcher ends the process (each is unwrapped in a spawned task or propagated out of `main`), so
  it is the crash step. A git task outlives its own error; that is the step `GitBoned`. And two
  errors inside the watchcat's filters are swallowed: a patch that cannot be fetched counts as not
  wanted, and a series that cannot be looked up in "seen by watchcat" counts as not seen. Both are
  part of the `Answer` a filter gets.
- The configuration is the same over restarts. "remotes to push to" persists, so its entries are
  part of the configuration; its values are single words (there is only "github").

`Sighted` says that no look-up of a series that was seen fails. Provenance, single posting, the check
behind every removed key and the termination of every schedule hold without it. Where a series is, how
often it is queued, and that the pipeline empties depend on it, as `Blind` shows. `WordHandles` says
that handles have no space; it is a hypothesis where a dispatch key is read back,
directly or in the invariant of the whole system, and `Codec.KeyRoundTrip` shows what fails without
it. What concerns only the watchcat, the ingest loop and the git threads holds for any handles.
`Distinct(c.remotes)` says that no two remotes share a handle; `Sharing` shows that queueing once and
reporting once hold exactly then. Sharing does not keep the pipeline from emptying, although a job
watcher whose series another one moved hangs. `Staffed` says that there is a git thread and a runner
for each remote's queue.

## Where code and comments differ

- `try_do_work` calls the wait on its own tree something that should never happen. It does not as long
  as neither the process nor a task gives up (`Stale.CalmTasksNeverWait`). It happens after a crash
  inside `do_work` (`Stale.StaleAfterCrash`), and in a living process after a task whose final removal
  or move to "git failures" was an error (`Stale.StaleAfterGivingUp`). Then the wait returns at once
  every time because the tree is not empty, and no task of that worker gets past it ever again, after
  any number of restarts (`Stale.StaleForever`, `GitWork.WaitForOwnTree`).
- The filters of the watchcat are meant to let a series through once. A failed look-up in "seen by
  watchcat" reads as "not seen" (src/watchcat.rs:64), so a series under way can be queued again; then
  two threads can work on it, and a task whose series the other one took spins in its first move
  (`Blind.EntersOnceIffSighted`, `Blind.OneThreadEachIffSighted`, `Blind.MovesHitIffSighted`).
- A run whose setup step failed is meant to be a warning, not the patch's fault; the value built for
  that is dropped and the outcome is `Fail` (`GitHub.SuccessMeansClean`).
- The context of a check is promised to identify a job, but two jobs whose names differ only in
  characters that are sanitised share one, and the second is never reported
  (`Dispatching.SuppressedIff`).
- A series is marked as seen before it is queued, so an error in between leaves it seen and never
  queued (`Scan.CheckSeriesList`, `ScanRefinement.ScanRefines`).
- An answer without jobs counts as all jobs finished (`Watching.CompletedAnswerEndsWatch`).

## Model

| member | source | states |
|---|---|---|
| Guarantees.EveryCheckHasACause | src/dispatch.rs:24-48 | In every state reachable from an empty database, crashes included, each check posted by snowpatch reports a finished result that a poll returned for its series, on the last patch, under the sanitised "handle-name" context, with that result's outcome, link and text; the series' branch was pushed, it was queued at that handle, and it passed the filters. |
| Guarantees.NeverPostedTwice | src/patchwork.rs:176-206 | Over all runs, failed sends and crashes between a post and its acknowledgement or removal included, no two checks of snowpatch share patch and context. |
| Guarantees.RemovedMeansReported | src/dispatch.rs:47-54 | The key of every result handed to the dispatcher is in its tree or was handled; with a token, every handled key has a check with its context on the server, whether it was handed over again or not. |
| Guarantees.ResultsSentUnchanged | src/runner.rs:128-134 | When no two remotes share a handle, each job of a series is handed over at most once, no entry is overwritten before it is handled, and every removed key had been sent with exactly the result handed over. |
| Guarantees.ErrorBranchesUnreachable | src/dispatch.rs:28-31 | The dispatcher never meets a malformed key, an unparsable id or a series without patches, and no series without patches reaches the watchcat's enqueueing. |
| Guarantees.InExactlyOnePlace | src/database.rs:8-22 | While no look-up of a seen series fails, a series that ever entered "needs testing" entered once, is marked seen, and is in exactly one of the four kinds of tree or through git, with the value it entered with. |
| Guarantees.PlaceMatchesStage | src/git.rs:178-209 | The trees hold a series exactly where the abstract per-series stage says, with its value. |
| Guarantees.EverythingWasSeen | src/watchcat.rs:76-78 | A series with an entry in any tree, those of the runners and the dispatcher included, is in "seen by watchcat". |
| Guarantees.ValueNeverChanges | src/watchcat.rs:47-50 | The value a series was queued with is the same after any continuation of the run. |
| Blind.EntersOnceIffSighted | src/watchcat.rs:64 | No series ever enters "needs testing" twice if and only if no look-up of a seen series can fail. |
| Blind.MovesHitIffSighted | src/git.rs:193 | A git task past its wait always finds its series if and only if the same. |
| Blind.SecondTaskMisses | src/database.rs:10-18 | The run in which it does not: the series was queued twice, and its first task has ended. |
| Blind.OneThreadEachIffSighted | src/git.rs:336-348 | With two threads, no two of them ever work on one series if and only if the same. |
| Blind.OnlyForwardIffSighted | src/watchcat.rs:60-79 | Stages only move forward if and only if the same. |
| Blind.NeverOverwritesIffSighted | src/watchcat.rs:43-50 | An entry of "needs testing" is never overwritten if and only if the same. |
| Guarantees.MovesFindTheirKey | src/git.rs:163-205 | While no look-up of a seen series fails: whatever the other actors do, the ingest move and both git moves find their key, so their retry branch is unreachable. |
| Guarantees.WorkersExclusive | src/git.rs:178-209 | While no look-up of a seen series fails: a worker tree never holds two series, a thread inside `do_work` finds its own series as the only entry, and no two threads work on one series. |
| Guarantees.OnlyConsumersRemove | src/git.rs:158-174 | A key leaves "needs testing", a runner queue or "needs dispatch" only by the removal its consumer makes of the key it was given. |
| Guarantees.NothingInsertedTwice | src/runner.rs:128-134 | While no look-up of a seen series fails, no key is inserted into "needs testing" while it is there, and with distinct remotes neither into a runner queue nor into "needs dispatch". |
| Guarantees.EveryStepSimulates | src/git.rs:154-209 | While no look-up of a seen series fails, every step of every actor, the crash included, is at most one step of the per-series machine seen, needs, awaiting, worker, failed or done, for every series. |
| Guarantees.StagesMoveForward | src/watchcat.rs:60-79 | While no look-up of a seen series fails: over any stretch of any run a series keeps its stage or moves to a strictly later one. |
| Guarantees.EveryRunnerStepSimulates | src/runner.rs:73-153 | When no two remotes share a handle, a series at a runner only goes from queued to working to reported, and is in its trees accordingly. |
| Guarantees.FailureMeansNotQueued | src/git.rs:404-430 | A series in "git failures" got there by a step in which its task failed, and was queued exactly at the remotes before the one its thread was at in that step, hence nowhere with one remote; a series through git exactly once per remote. |
| Guarantees.FailureFixesQueues | src/git.rs:195-207 | Once a task has failed at a remote, no continuation, crashes and restarts included, queues its series anywhere again. |
| Guarantees.ArrivedFacts | src/git.rs:407-429 | What is in a runner queue was pushed, passed the filters and has patches. |
| Sharing.QueuedOnceIffHandlesDistinct | src/git.rs:404-430 | No runner queue ever gets a series twice if and only if no two remotes share a handle. |
| Sharing.ReportedOnceIffHandlesDistinct | src/runner.rs:128-134 | With a runner for each remote, no job of a series is ever handed to the dispatcher twice if and only if no two remotes share a handle. |
| Sharing.JobMovesFindTheirKeyIffUnshared | src/runner.rs:79-90 | The move out of a runner queue always finds its key if and only if no two runners watch the queue of one configured remote. |
| Sharing.SecondWatcherMisses | src/runner.rs:56-62 | The run in which two watchers of one queue pick the same series and the second finds nothing to move. |
| Reach.ReachRemote | src/git.rs:404-430 | Every series with patches can be brought to any remote by legal steps, so the conditions above are not vacuous. |
| Drain.StepLowers | src/git.rs:158-208 | Every productive step of every actor lowers one lexicographic measure over trees, threads, watchers and the dispatcher's round. |
| Drain.EveryScheduleRunsOut | src/runner.rs:78-150 | However the actors are scheduled, a run without crash, new series, foreign checks and unfinished answers comes to an end. |
| Drain.NoDeadlock | src/dispatch.rs:22-56 | No deadlock, with any sharing of handles: unless the trees are empty or an entry is stranded, some actor has a productive step. |
| Drain.StepKeepsStranded | src/git.rs:193-205 | A step that is neither a crash nor a task giving up leaves no entry without the task, thread or watcher in charge of it, and never rescues one that has none. |
| Drain.StrandedForever | src/git.rs:188-193 | An entry of "awaiting git worker", a worker tree or a runner's working tree that has lost its task, thread or watcher has lost it for good, over every continuation: restarts, new series, answers and failures included. |
| Drain.DrainsIffNothingStranded | src/git.rs:188-193 | From a reachable state the trees can be emptied by productive steps if every entry still has its task, thread or watcher, and by no continuation at all otherwise. |
| Drain.MaximalRunEmptiesIff | src/git.rs:158-208 | Whatever productive steps were taken from a reachable state, once none is left the pipeline is empty if and only if nothing was stranded at the start. |
| Drain.CalmRunsEmpty | src/runner.rs:89-97 | After any run without crash and without a task giving up, every schedule of productive steps that has come to its end has emptied the pipeline. |
| Drain.CalmRunsDrain | src/dispatch.rs:22-56 | After such a run there is such a schedule. |
| Drain.CrashAfterMoveStrands | src/git.rs:163-168 | After a crash in any state between the ingest move and the spawn no continuation, of whatever kind, ever empties the trees, since nothing spawns tasks for "awaiting git worker" again. |
| Drain.CrashCanStrand | src/git.rs:163-168 | Such a state is reachable with any series. |
| Delivery.EveryResultArrives | src/runner.rs:121-134 | After a run without crash and without a task giving up, when the productive steps have run out, every finished result that any poll ever returned was handed over and removed, and with a token its check is on the server: the converse of `Guarantees.EveryCheckHasACause`. |
| Delivery.EverySeriesIsSettled | src/git.rs:195-207 | There every series that entered is in "git failures" or through git; then it arrived at the runner of each remote, and with distinct remotes its watcher there has left. |
| Stale.StaleAfterCrash | src/git.rs:188-196 | A run with one crash, inside `do_work`, after which the entry of that series is left in its worker tree and the task of another waits behind it. |
| Stale.StaleAfterGivingUp | src/git.rs:199-207 | A run without crash that ends the same way: the task fails, and its move to "git failures" is an error. |
| Stale.StaleForever | src/git.rs:188-191 | An entry without its thread stays in its worker tree through every continuation, crashes included, and no task of that worker is ever past the wait again. |
| Stale.WaitEndsIffNothingStale | src/git.rs:188-193 | In every reachable state a waiting task can leave the wait, at once or in any continuation, if and only if its tree has no entry without its thread. |
| Stale.CalmTasksNeverWait | src/git.rs:187-191 | After any run without crash and without a task giving up, a task at the wait finds its tree empty. |
| Intake.StepKeepsRooted | src/watchcat.rs:60-79 | Every step keeps, even if look-ups fail: everything under way was marked as seen, which needs passing the filters, and what was queued was pushed. |
| Intake.StepKeepsInv | src/git.rs:154-209 | While no look-up of a seen series fails, every step of watchcat, ingest loop and git threads keeps the invariant that ties trees, program counters and per-series stages. |
| Intake.ThreadFacts | src/git.rs:336-348 | While a thread is in `do_work` its series is the entry of that thread's tree, so the read of its mbox succeeds; before, its series is in "awaiting git worker". |
| Intake.OnlyOpenSeriesWanted | src/patchwork.rs:316-318 | A complete series is taken up exactly if its last patch has no pull URL and is "new" or "under-review", and no look-up that succeeds finds it; one that is incomplete, empty or without patches never is. |
| Intake.CatMarkKeepsInv | src/watchcat.rs:76-77 | Marking a filtered series as seen keeps the invariant. |
| Intake.CatEnqueueKeepsInv | src/watchcat.rs:43-50 | Queueing a marked series keeps it; the series had never been queued. |
| Intake.IngestMoveKeepsInv | src/git.rs:160-163 | The ingest loop's move keeps it. |
| Intake.GitTakeKeepsInv | src/git.rs:188-193 | The move into a worker tree found empty keeps it. |
| Intake.GitQueueKeepsInv | src/git.rs:428-429 | Queueing at the runner of one remote keeps it. |
| Intake.GitRemoveKeepsInv | src/git.rs:199-202 | The removal after success keeps it. |
| Intake.GitFailMoveKeepsInv | src/git.rs:204-206 | The move to "git failures" keeps it. |
| Intake.CrashKeepsInv | src/main.rs:129-140 | So does losing all threads and pending tasks. |
| Ci.FinishedOf | src/runner.rs:121-125 | Exactly the jobs neither waiting nor running; all are finished if and only if the lengths agree. |
| Ci.SoundStep | src/runner.rs:73-153 | Every step of the watchers keeps: what they hold arrived in the queue, and what they report a poll returned as finished. |
| Ci.UniqueStep | src/runner.rs:73-153 | When each series arrives once, every step keeps, with any number of runners on a queue: one completion watcher per series, whose list of completed jobs is exactly what was ever reported, without duplicates. |
| Ci.UniqueReport | src/runner.rs:128-134 | A reported job was never reported for that series before. |
| Outbox.CheckOfResult | src/dispatch.rs:36-44 | For every handle without a space, id and name: the result under that key can be sent exactly if its series has patches; its check is on the last of them, has the outcome, link and text of the result, and the context is the sanitised handle, a minus sign and the sanitised name. |
| Outbox.SoundStep | src/dispatch.rs:22-56 | Every step of the dispatcher keeps: checks explained by handed-over results, none posted twice, keys marked for removal still in the tree with their check on the server, no key lost. |
| Outbox.SoundPost | src/patchwork.rs:197-217 | The post keeps it, because the question before it found no check of snowpatch with that context and nobody else posts for snowpatch. |
| Outbox.SoundRemove | src/dispatch.rs:52-54 | The deferred removal keeps it. |
| Outbox.SoundDeliver | src/runner.rs:130-132 | So does a result inserted in the middle of a round. |
| Outbox.FaithfulStep | src/dispatch.rs:23-54 | With each key handed over once, every step keeps: what is sent and removed is what was handed over. |
| Protocol.ReachedBase | src/main.rs:129-177 | In every reachable state, whatever the look-ups give: everything under way was marked as seen and passed the filters, what was queued was pushed, and the invariants of runners and dispatcher hold. |
| Protocol.StepKeepsInv | src/main.rs:129-177 | Every step of the whole system keeps the invariants of the parts and their agreement on what passed between them. |
| Protocol.StepKeepsUnique | src/main.rs:129-177 | When no two remotes share a handle it also keeps uniqueness of watchers, reports and keys. |
| Protocol.QueuedAtMostOnce | src/git.rs:428-429 | With distinct remotes a runner queue gets each series at most once over the whole run. |
| Protocol.Reached | src/main.rs:129-177 | While no look-up of a seen series fails, both invariants hold in every state reachable from an empty database. |
| Protocol.ReachedFront | src/main.rs:129-132 | While no look-up of a seen series fails, the invariant of the front holds in every reachable state whatever the handles are. |
| Wakeup.NoLostWakeupIffSubscribedFirst | src/database.rs:43-53 | A tree's only consumer never sleeps over a non-empty tree, over all interleavings of inserts and whatever the tree held at the start, if and only if it subscribes before it looks. |
| Wakeup.EachKeyIsSeenByTheNextPass | src/database.rs:43-53 | A key no pass has seen is still there and was inserted during or after the latest pass, or that pass cannot end without it; and the consumer is not asleep. |
| Waiting.EveryStepFits | src/git.rs:158-174 | The ingest loop, the only job watcher of a queue and the dispatcher are such consumers: composed with the whole system, every step that anybody takes at their tree is one the wait's model allows, in every run, crashes included. |
| Waiting.NobodyOversleeps | src/dispatch.rs:22-56 | In the composed system none of them ever sleeps over its tree. |
| Waiting.EachKeyIsSeenByTheNextPass | src/runner.rs:78-103 | In the composed system a key no pass has seen is still there, came in during or after the latest pass, or that pass cannot end without it. |
| Waiting.CalmRunsEmpty | src/git.rs:158-174 | In the composed system, after a run without crash and without a task giving up, when neither a productive step nor a step of the wait is left, the pipeline is empty. |
| Waiting.EveryScheduleRunsOut | src/database.rs:43-53 | And however the actors and the wait are scheduled, those steps run out. |
| Wakeup.LosingRun | src/database.rs:46-50 | The run that loses a key when looking comes first. |
| Codec.KeyRoundTrip | src/dispatch.rs:27-32 | For every id and every job name the key is read back as the triple it was written for if and only if the handle has no space. |
| Codec.KeysNeverCollide | src/runner.rs:130 | With space-free handles two keys are equal only for equal triples. |
| Codec.JoinSplit | src/dispatch.rs:28-32 | Joining what splitting at spaces gave is the identity, whatever spaces there are. |
| Codec.DecimalRoundTrip | src/git.rs:429 | A series id survives printing and parsing, and its text has no space. |
| Codec.DecimalIsCanonical | src/git.rs:429 | A printed number has a leading zero only if it is 0, so an id has one key. |
| Codec.ParseU64Cases | src/dispatch.rs:31 | For every number: it is read back, also with a plus sign, exactly if it is below 2^64; the empty text, a sign alone and a text with any other character are errors. |
| Codec.KeyParts | src/runner.rs:130 | Split at spaces, a key is the handle, the printed id and the parts of the job name, in this order. |
| Codec.MalformedIff | src/dispatch.rs:28-31 | A key is an error exactly if it has no space or its second part is no id. |
| Codec.SplitPartsSpaceFree | src/dispatch.rs:28 | No part has a space, so with `Codec.JoinSplit` the splitting is the only one. |
| Codec.SanitiseByCode | src/patchwork.rs:410-429 | Which characters stay, by their codes; every other becomes an underscore. |
| Codec.SanitiseLegal | src/patchwork.rs:410-429 | The result is legal, sanitising is idempotent, and it is the identity exactly on legal contexts. |
| Codec.SanitiseCollides | src/patchwork.rs:410-429 | Two contexts become the same exactly if they agree at each position once illegal characters are underscores. |
| GitHub.SuccessMeansClean | src/runner/github.rs:228-338 | A readable run is a success exactly if it succeeded with no annotation in any readable check run, and a warning exactly if it succeeded with some or gave no verdict; only GitHub's own failure is both completed and failing; the total reported for several check runs is that of all readable ones. |
| GitHub.FilterKeepsTotal | src/runner/github.rs:290-315 | Filtering out check runs without annotations loses none. |
| GitHub.ReadableIff | src/runner/github.rs:235-248 | Reading a run fails exactly if its jobs are needed and cannot be fetched, or it failed without a failed job. |
| GitHub.ProgressInOrder | src/runner/github.rs:390-397 | One result per run in their order, or an error if any run gave one. |
| GitHub.FinishedIffCompleted | src/runner/github.rs:209-226 | A readable result is finished if and only if GitHub calls its run completed, completed exactly if the conclusion is then failure, neutral or success, waiting exactly if queued, running exactly if in progress; it has the name and link of its run. |
| GitHub.CompletedRunsAreFinished | src/runner/github.rs:390-397 | An answer whose runs are all completed and readable has only finished results, one for each run, with its name. |
| GitHub.FinishedComesFromCompleted | src/runner/github.rs:209-226 | Each finished result of an answer was read from a run of that answer whose status is completed. |
| GitHub.OneFailureNamed | src/runner/github.rs:235-280 | If exactly one job failed, at exactly one step, wherever they are in their lists, the description names both. |
| GitHub.FailuresKept | src/runner/github.rs:237-241 | The failed jobs that are counted are all of them, each as often as it occurs. |
| GitHub.FailuresInTexts | src/runner/github.rs:243-281 | The numbers in the description of a failed run: failed jobs of all jobs, or failed steps of all steps of the one failed job. |
| GitHub.AnnotationsInTexts | src/runner/github.rs:287-325 | The numbers in the description of a successful run: all jobs if nothing is annotated, and with one annotated check run the annotations of all. |
| Watching.ReportFinished | src/runner.rs:128-135 | One answer adds exactly its new names, in order, to the list and to the tree. |
| Watching.WaitForCompletion | src/runner.rs:106-153 | Against any sequence of answers: it stops at the first that is an error or has only finished jobs; what it wrote and its list of names are those of the first occurrences of what it heard; the working entry goes exactly if all finished; no other tree changes. |
| Watching.HeardIffSeen | src/runner.rs:118-125 | What it heard are exactly the finished jobs of the answers up to the one that ended it, and the first occurrence of a name is the first in the order of answers and of jobs within an answer. |
| Watching.NewsAreFirst | src/runner.rs:128-135 | The reported results are exactly the first finished occurrence of each name, each name once. |
| Watching.DispatchHoldsFirstResults | src/runner.rs:116-150 | Afterwards the list of completed jobs has exactly the names seen finished in some answer that was used, once each; each has under its key the result of the first answer and place where it was seen finished; every other key is as before. |
| Watching.CompletedAnswerEndsWatch | src/runner.rs:116-147 | The first answer whose runs are all completed and readable ends the watch, unless an earlier one did, and by then each of its runs' names has been reported. |
| Watching.PollsInOrder | src/runner.rs:117 | The answers the watcher gets are those of the runner, read one by one, in order. |
| Watching.ReportsComeFromCompletedRuns | src/runner.rs:119-135 | Everything a watcher reports was read from a completed run, and says success exactly if that run was clean. |
| Dispatching.Server.SendCheck | src/patchwork.rs:145-218 | A check is created exactly if there is a token, series and checks can be read, the context is new and the post arrives; and when the call is an error. |
| Dispatching.SendResult | src/dispatch.rs:25-49 | Sending one key. Without a token it succeeds exactly if the key can be read, and the server is as before. With one it succeeds exactly if the key can be read, its series has patches, series and checks are answered, and the check is there already or the post is accepted; after an error the server has at most that check. |
| Dispatching.StopsAtFirstObstacle | src/patchwork.rs:145-218 | The calls that go well are exactly those with nothing in their way, and those whose check is there already. |
| Dispatching.GoodRoundCompletes | src/dispatch.rs:22-54 | A round in whose way nothing stands, and whose removals are no errors, comes to its end, whatever the server has. |
| Dispatching.QuietRound | src/dispatch.rs:22-54 | When nothing comes in meanwhile, any order of the keys in the tree is a pass, what is sent under each key is its value in the tree, and a round that comes to its end leaves the tree empty. |
| Dispatching.Round | src/dispatch.rs:22-54 | One pass, with results coming in before each key and before each removal: it stops at the first send or removal that is an error; after an error of a send every key is still in the tree and there is at most one check more than the keys sent; after an error of a removal the rest of the keys is; otherwise the keys it was given were removed. |
| Dispatching.OtherKeysStay | src/dispatch.rs:52-54 | After any number of removals every key that was not yielded is as all insertions left it. |
| Dispatching.YieldedKeysGo | src/dispatch.rs:52-54 | And a yielded key is gone unless it came in again after its own removal. |
| Dispatching.SendNext | src/dispatch.rs:24-49 | One key of a pass, after what came in before it: its value is the one in the tree at that moment. |
| Dispatching.DropKeys | src/dispatch.rs:52-54 | The second loop, with results coming in before each removal: it removes the sent keys in order up to the first removal that is an error. |
| Dispatching.SendingKeepsPostedOnce | src/patchwork.rs:185-195 | Sending any keys in any order never creates a second check with the same patch and context, and removes none. |
| Dispatching.SuppressedIff | src/patchwork.rs:176-195 | A result is suppressed if and only if the server had its check from the start or an earlier result of the same patch has a context that agrees after sanitising. |
| Database.Db.MoveToNewQueue | src/database.rs:8-22 | The attempt commits exactly if the key is there; then the value is moved, otherwise nothing changes. |
| Database.MoveConserves | src/database.rs:8-22 | A move between two trees changes the place of one value and no other entry of any tree. |
| Database.MovedAllNext | src/database.rs:8-22 | One more move on top of any number of moves between two trees: the key is still there, and all of them have then gone over, each with its value, and no other entry of any tree has changed. |
| Database.CollectStringValues | src/database.rs:24-40 | All pairs in order, or an error exactly if one item is an error. |
| Ingesting.IngestPass | src/git.rs:158-171 | One pass of the ingest loop: the keys go over to "awaiting git worker" in the order they are yielded, with their values, up to the first move that is an error; exactly for those that went over a task is spawned. |
| Ingesting.QueuePass | src/runner.rs:78-99 | One pass of a job watcher: series go from its queue to its working tree up to the first that cannot be started or moved; exactly those that went over get a completion watcher. |
| GitWork.Served | src/git.rs:407-424 | The remotes before the first whose push, look-up or queue insertion is an error; a branch that already exists is none. |
| GitWork.ServeRemotes | src/git.rs:403-430 | It succeeds if and only if every answer is that the branch was pushed or is there already, and the series is queued at the runners of exactly the remotes before the first other answer. |
| GitWork.DoWork | src/git.rs:336-433 | It succeeds if and only if the preparation went well, the list of remotes can be read and every answer is one of those two. |
| GitWork.WaitForOwnTree | src/git.rs:188-191 | Through any number of wakeups the wait ends exactly if the worker tree is empty; over whole runs, when it is, is `Stale.WaitEndsIffNothingStale`. |
| GitWork.RunTask | src/git.rs:193-209 | After the wait, whichever database call is an error: if the first move is, nothing changes; then the queues served are those of `do_work`, and the series ends in "git failures" with its value, nowhere, or, if the last call is an error, still in the worker tree. |
| GitWork.TryDoWork | src/git.rs:178-209 | Both together: nothing changes while it waits, and otherwise exactly what `GitWork.RunTask` does. |
| GitWork.InitRunners | src/runner.rs:48-70 | One "github" runner per entry, one tree entry per distinct remote, older entries kept. |
| GitWork.RemotesLeadToRunners | src/git.rs:403-407 | Read back by a task, a list of remotes filled at the start has exactly the configured remotes, and the queue of each is that of "github". |
| GitWork.UnsharedMeansSingle | src/runner.rs:58-61 | So handles are unshared exactly with at most one remote and one runner. |
| GitWork.NamesApart | src/git.rs:182 | The names of worker trees, queue trees and the fixed trees differ. |
| Scan.ScanIsConfluent | src/watchcat.rs:56-85 | In whatever order the parallel tasks of a scan run, and whatever the other actors do meanwhile, afterwards exactly the wanted series were marked and queued, once each, with their own mbox; a series whose look-up fails is wanted if it passes the other filters. |
| Scan.ScanAloneLeavesTrees | src/watchcat.rs:56-85 | With no other actor at work, any order leaves the same "seen by watchcat" and the same "needs testing": what was there, and the wanted series with their mbox. |
| Scan.RepeatedScanQueuesNothing | src/watchcat.rs:60-82 | Once what was chosen from a list is seen, whatever was scanned in between, scanning it again marks nothing and queues exactly the series whose look-up fails: none if none fails. |
| Scan.CheckState | src/watchcat.rs:34-54 | The series is queued exactly if it has patches and its checks can be read, whatever they are. |
| Scan.CheckSeriesList | src/watchcat.rs:56-85 | In any order of the tasks, with look-ups that may fail, and however many still run after an error: it succeeds exactly if the checks of each wanted series can be read; of the series that were dealt with exactly the wanted are marked and exactly those with readable checks queued. |
| Trees.NamesApart | src/git.rs:182 | No two trees share a name, for any workers and handles; "github queue" and "github working" are different. |
| Trees.NamesInUse | src/runner.rs:75-76 | The names the loops open are those of the trees the transition system has, by their letters. |
| Trees.RemotesApart | src/runner.rs:50 | None of them is "remotes to push to". |
| Refinement.WatcherLoopRefines | src/runner.rs:106-153 | If the trees represent a state, what `WaitForCompletion` leaves in all of them represents a state its watcher reaches by steps of the transition system, whether all jobs finished, an answer was an error after some reports, or it still waits. |
| Refinement.RoundRefines | src/dispatch.rs:22-54 | If the trees represent a state, what `Round` leaves on the server and in all of them but the runners', when it comes to its end, fails at any key, fails after a post that arrived, or fails at any removal, is what a run of the dispatcher leaves, interleaved with any steps of the runner side that insert results meanwhile. |
| Refinement.TaskRefines | src/git.rs:178-209 | If the trees represent a state, what `TryDoWork` leaves in all of them is what the very run of these answers leaves: a push that goes well or finds the branch is followed by the insertion, the first other answer is the failure, before it; also for an error of the first or the last move. |
| PassRefinement.IngestRefines | src/git.rs:158-171 | If the trees represent a state, what `IngestPass` leaves in all of them, and the tasks in the pool, are those of a pick, a move and a spawn for each series, and a crash at the first move that is an error. |
| PassRefinement.QueueRefines | src/runner.rs:78-99 | If the trees represent a state, what `QueuePass` leaves in all of them, and the completion watchers, are those of a pick, a start, a move and a spawn for each series, and a crash at the first start or move that is an error. |
| ScanRefinement.WantedAgrees | src/watchcat.rs:60-75 | If "seen by watchcat" holds a set of series, the filters of the loop let through exactly the series those of the transition system do. |
| ScanRefinement.ScanRefines | src/watchcat.rs:56-85 | If the trees represent a state, what `CheckSeriesList` leaves in all of them is what the list, and for each entry dealt with its filter, marking and queueing, leave, with the same answers, followed by a crash after an error; without one the scan is over. |

## Left out

- HTTP requests, JSON, URLs, tokens, timeouts and paging: an answer is a parameter or chosen by the environment, and complete.
- Applying, committing and pushing with libgit2 or the git binary, worktrees and credentials: one outcome per `do_work` and per remote.
- The insides of sled and rayon, and starvation of the global thread pool by tasks that never return.
- Configuration files, command line, logging, and the description texts apart from the counts and names in them.
- `get_series_state`, getters, and the paths that end in `todo!()` (manual triggers, `clean_up`).
- The timed polling of `start_work`: it starts a series or is an error, that is a crash.
- The byte encodings of ids and results in the trees are taken as exact; keys that are not UTF-8 do not occur.
- The endless loops around a pass (`ingest`, `new_job_watcher`, `wait_and_send`) are steps of the transition system; only what one pass or one task does is also a method.
- Ingesting.IngestPass: the keys the iterator will yield are there from its beginning; that others come in meanwhile is covered by the transition system, in which each step may be interleaved. `Ingesting.QueuePass` likewise.
- Blocking in `wait_for_tree` is modelled in `Wakeup` with the consumer's loop around it, not as a method; a key inserted again between being yielded and being removed is excluded there, as `Waiting.EveryStepFits` shows it may be.
- GitHub.SuccessMeansClean: does not model that the sum of annotation counts could exceed 64 bits.
- GitWork.TryDoWork: the wait is cut off after `patience` wakeups, any number of them, because it does not return; `Stale.WaitEndsIffNothingStale` states over all runs when it ends.
- Refinement.RoundRefines: starts at a non-empty tree, since a pass that finds the tree empty at its beginning is not a step of the transition system. It says nothing about the runners' own trees, which the steps in between go on with.
- Scan.CheckSeriesList: the tasks are taken one after the other; that their steps may interleave is covered by `Scan.ScanIsConfluent` for scans without error.
- Waiting.EveryStepFits: composes the wait of one consumer at a time with the system, and needs distinct remotes and one runner per queue; the waits of the others are left open, as steps that may come at any moment.
