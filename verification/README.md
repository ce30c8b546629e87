# BulletFarm: lifecycle, worker and memory in Dafny

BulletFarm runs coding agents on Kubernetes. An operator turns each `AgentTask` into a worker pod,
polls it, retries it on the same branch and pull request, and waits until a person merges or closes
the PR. The worker runs an LLM agent, publishes a draft PR, and keeps what it learnt in two
Elasticsearch indices. This project models those parts in Dafny and proves what they keep.

    dafny verify dfyconfig.toml

## How the model is built

**Operator** (`Operator.dfy`). `AgentTaskReconciler` is the reconciler together with the cluster it
acts on: the stored versions of the status, the task's pods, the calls made so far. Its handlers
assign the status field by field, create and delete pods around status updates that can be lost, and
are each proved equal to a decision function (`DecidePending`, `DecideRunning`, ...). A reconcile call
may read a snapshot that is `lag` versions old; an update is accepted only if the snapshot is current
and the API server serves it, and a lost update leaves the stored object as it was. The properties
are proved of the decision functions and of whole runs:

- `Lifecycle.dfy`: every run, with stale reads, lost updates, and pods that do anything they like.
  Each stored phase fixes the other fields, phase changes are bounded, final states absorb.
- `Transitions.dfy`: the transition relation that every stored status follows, and what one current
  call does in each phase, written out independently of the decision functions.
- `Termination.dfy`, `PhaseBounds.dfy`: enough decisive calls end every task; and when reads are fresh
  and ended pods stay ended, a run has one phase change less than in general.
- `CrashRecovery.dfy`, `Wakeups.dfy`: calls whose update is lost. Repeated in the same environment they
  are harmless except when a human verdict on the PR was acted on; that case is characterised
  exactly, and so are the lost updates after which nobody calls again.
- `Pods.dfy`, `Creations.dfy`, `Attempts.dfy`, `PodNames.dfy`: which pods are requested, created, alive and
  left behind; when pod names collide; why two tasks do not touch each other's pods.
- `Protocol.dfy`, `Polls.dfy`, `Waiting.dfy`, `Drafts.dfy`: operator and workers together. Polls are answered
  from the worker's own registry, a pod's worker takes its own steps and logs how its task ended, a
  pod that has succeeded or failed stays so and its worker stands still, and GitHub reports a PR as
  merged only if a person merged it.
- `Witnesses.dfy`: runs that meet the bounds, runs that show what stale reads can do, and runs of what
  the documentation leaves out.

**Worker** (`Worker.dfy`, `Agent.dfy`). `Worker` is the process with its status registry and routes.
`RunTask` is one run: setup, LLM tries with checkpoints, evaluation, publication, outcome document.
A `Script` says which steps raise and what the model, git and GitHub answer.

**Memory** (`Memory.dfy`, `Retrieval.dfy`). `MemoryWriteBuffer` and `MemoryStore` over the two indices;
graduation from task memory to shared memory, also when calls fail (`Graduation.dfy`); the ranking of
hits and the fallback ladder of a search.

**Algorithms** (`DocUpdate.dfy`, `Skills.dfy`). The section rewriter of the `doc_update` tool as the
leftmost non-overlapping scan its regular expression performs, and the merge of skill lists.

## Where the code and its documentation differ

The model follows the code.

- The program's own README (its line 169) says that a merged task's pod is cleaned up. A deletion that
  is not served in the call that records the verdict is never tried again, and for a pod that cannot
  answer it is not tried at all (`Attempts.LeftoverPodExactly`, `Witnesses.MergedTaskKeepsPod`).
- It also says (lines 169 and 170) that memory is graduated when the PR is merged or closed. A task that
  loses its pod while it waits ends `Closed` without being graduated, and so can a merge
  (`Attempts.GraduatedExactly`, `Witnesses.MergedPrEndsClosed`); a merge whose update is lost ends the
  same way (`CrashRecovery.LostVerdictReadsClosed`). A failed lookup reads as "no result" and the task
  memory is then deleted (`Memory.KnowledgeLostExactly`); a deletion that fails lets a repeated call
  share the result again (`Graduation.DuplicatesExactly`).
- Retries are to go to the same PR. A draft that was asked for but not stored before its pod went away,
  or before the next attempt was started, is not known to that attempt, which asks for another one
  (`Drafts.SecondDraftExactly`, `Witnesses.TaskAsksTwice`).
- `worker/README.md` describes one bulk write on completion and an optional checkpoint after five
  minutes. The code never clears the buffer and never moves the last flush time, so a long run
  checkpoints at every tool call and sends earlier documents again (`Agent.FlushCount`).
- The docstring of `should_write_to_shared_memory` names three skill tools; the code also accepts
  `graphql_debug`, which the incomplete test does not count as meaningful.
- `doc_update` reports the section as updated even when its heading occurs but is never followed by a
  line break, as in a longer heading or at the end of the file; then nothing changes
  (`DocUpdate.UpdateTakesEffectExactly`). Updating an empty section whose heading line another heading line
  directly follows replaces that other section as well (`DocUpdate.EmptySectionTakesNext`,
  `DocUpdate.NextSectionLost`). Content that itself holds a second-level heading is not
  replaced as a whole by the next update (`DocUpdate.LastWriterWinsExactly`).

## Model

| member | source | states |
|---|---|---|
| Lifecycle.PhaseChangesBounded | operator/internal/controller/agenttask_controller.go:113-141 | any run stores at most 3M + 5 phase changes, whatever pods, workers, people, stale reads and lost updates do; M is the retry budget (0 means 2, negative means 0) |
| PhaseBounds.FreshPhaseChangesBounded | operator/internal/controller/agenttask_controller.go:246-256 | with fresh reads, and pods that stay ended once they have succeeded or failed, any run stores at most 3M + 4 |
| PhaseBounds.HonestFreshBound | operator/internal/controller/agenttask_controller.go:246-256 | in particular every run with honest polls and fresh reads |
| PhaseBounds.BoundWithoutWaiting | operator/internal/controller/agenttask_controller.go:363-383 | the same bound for every run in which a Completed task never finds a pod that can answer about a known PR |
| PhaseBounds.HonestBoundWithoutRetries | operator/internal/controller/agenttask_controller.go:363-371 | without retries, and with polls answered by the polled worker, four phase changes are the most even with stale reads |
| Witnesses.FreshBoundIsMet | operator/internal/controller/agenttask_controller.go:113-141 | for every task some run with fresh reads and honest polls stores exactly 3M + 4 |
| Witnesses.StaleReadsMeetTheBound | operator/internal/controller/agenttask_controller.go:181-196 | for every task with retries some run with honest polls and one stale read stores exactly 3M + 5 |
| Witnesses.PhaseBoundIsMet | operator/internal/controller/agenttask_controller.go:246-256 | in an environment that may do anything, even let an ended pod run again, every task has a run with exactly 3M + 5 |
| Lifecycle.EveryStoredStatusGood | operator/internal/controller/agenttask_controller.go:198-202 | every status ever stored has the fields its phase promises: completion set exactly in Completed, WaitingForPR, Merged and Closed, with progress 100; Running and Failed name the pod of the current retry count; Pending has no pod, no times, progress 0; no unknown phase is ever stored, so the reset is unreachable |
| Lifecycle.TerminalAbsorbs | operator/internal/controller/agenttask_controller.go:131-133 | Merged, Closed and Failed without retries left stay exactly as they are in every continuation of the run, stale reads included |
| Lifecycle.DecisionProgresses | operator/internal/controller/agenttask_controller.go:123-141 | each reconcile decision keeps the phase invariant, lowers the potential whenever it changes the phase, and counts a retry exactly when it asks for the retry delay |
| Lifecycle.BackoffSum | operator/internal/controller/agenttask_controller.go:503-537 | the retry delays requested over a run sum to 15 R (R + 1) seconds for a final retry count R, and R never exceeds the budget |
| Lifecycle.RetryBudgetExactly | operator/internal/controller/agenttask_controller.go:498-529 | a failed task is retried exactly while its retry count is below the budget, which is 2 when unset and 0 when negative; a retry clears progress, pod and times, keeps the PR and the failure reason, and counts itself |
| Transitions.VersionsFollow | operator/internal/controller/agenttask_controller.go:113-141 | in every run, stale reads and lost updates included, each stored status follows the one before in a transition relation written out phase by phase with every field |
| Transitions.StartsExactly | operator/internal/controller/agenttask_controller.go:146-215 | a served current call on a Pending task makes it Running, with progress 5 and its pod there, adopted or new, exactly when the agent is known and the creation is served; otherwise nothing changes |
| Transitions.PodDecides | operator/internal/controller/agenttask_controller.go:219-267 | in Running, a missing, failed or succeeded pod decides the stored status; in every other state of the pod, and without its address or an answer, nothing at all changes |
| Transitions.CleanupOrder | operator/internal/controller/agenttask_controller.go:363-383 | a failed task's pod is deleted before its status is stored, that of a task without a PR afterwards, and that of a task whose pod cannot answer not at all |
| Lifecycle.MergedIsOrdered | operator/internal/controller/agenttask_controller.go:387-429 | a status becomes Merged only in a call with a current snapshot whose poll read merged; that call graduates first, then deletes the pod if that is served, then writes the status with the polled PR state |
| Lifecycle.VerdictsAlwaysInOrder | operator/internal/controller/agenttask_controller.go:393-429 | in every run, stale reads included, each write of a human verdict (Merged, or Closed for a closed PR), accepted or lost, comes right after the graduate request for that task's worker and, if it was served, the deletion of its pod |
| Termination.DecisiveCallMoves | operator/internal/controller/agenttask_controller.go:146-328 | a call that the environment serves and gives something to act on changes the phase of every task that is not final |
| Termination.DecisiveRunTerminates | operator/internal/controller/agenttask_controller.go:113-141 | after 3M + 5 such calls a task is in a final state, whatever happened in between |
| Witnesses.StaleReadRevivesPod | operator/internal/controller/agenttask_controller.go:181-196 | in some run with honest polls, no lost pod and every deletion served, a stale Pending read creates the first attempt's pod a second time, beside the second attempt |
| Witnesses.StaleReadMergesOther | operator/internal/controller/agenttask_controller.go:387-397 | in some run with honest polls a stale read leads to a task stored as Merged whose stored PR was never merged |
| CrashRecovery.LostWritesHarmlessExactly | operator/internal/controller/agenttask_controller.go:375-429 | any positive number of lost updates followed by a stored one leaves the status and pods of one stored call, if and only if no human verdict was acted on with a served deletion; Pending, Running and Failed calls always qualify, so no retry is counted twice and a created pod is adopted |
| CrashRecovery.LostVerdictReadsClosed | operator/internal/controller/agenttask_controller.go:375-383 | in the remaining case the task ends Closed with nothing else changed, even if the PR was merged |
| CrashRecovery.DecidesAgain | operator/internal/controller/agenttask_controller.go:181-210 | after one lost update the next call decides as the first would have, if and only if no verdict was lost |
| Wakeups.LossIgnoredExactly | operator/internal/controller/agenttask_controller.go:246-256 | a call on a task that is not final asks for no further call after a lost update, if and only if the pod has succeeded, no PR is known, or the pod that could answer is not available |
| Wakeups.ForgottenExactly | operator/internal/controller/agenttask_controller.go:363-383 | after a current call on such a task no further call is due, neither by request nor because its stored status or its pods have changed, if and only if its update was lost in one of those cases and no pod was deleted on the way |
| Wakeups.AbandonedExactly | operator/internal/controller/agenttask_controller.go:806-812 | at the end of any run a task that is not final has no call to come, if and only if its last call was such a one and no pod has changed since; an update that stores the same status again does not count as a change |
| Wakeups.PollingGoesOn | operator/internal/controller/agenttask_controller.go:300-328 | in every run, a current call that leaves the stored status of a task that is not final as it is, and is not one of those, asks for the next call: at once after an error or on request, in 15 seconds while Pending or Running, in 30 while a PR waits; only after deleting the pod of a task without a PR does it rely on that deletion |
| Wakeups.NextCallWhileRunning | operator/internal/controller/agenttask_controller.go:219-328 | when the next call comes after each outcome of a running step: 15 seconds while the task runs, at once after a failure, none after an end that was stored |
| Wakeups.NextCallWhileWaiting | operator/internal/controller/agenttask_controller.go:359-441 | 30 seconds after an unanswered poll and after an open PR, an error after a lost answered poll, and otherwise none |
| Wakeups.NextCallElsewhere | operator/internal/controller/agenttask_controller.go:123-215 | a new task is called again at once, a Pending one in 15 seconds, a retried one after 30 seconds per retry |
| Attempts.EveryRequestIsAnAttempt | operator/internal/controller/agenttask_controller.go:157-179 | every pod request of every run is for an attempt within the budget, under that attempt's name, with the task's one branch ("task-" and its name unless it names one), marked as retry exactly after the first attempt, with duplicate-free skills that include all of the task's own |
| Attempts.RequestCarries | operator/internal/controller/agenttask_controller.go:155-179 | a request carries exactly the agent's default skills, in front and in their order, and the task's own, and the PR of the status that was read |
| Attempts.OverLeavesPods | operator/internal/controller/agenttask_controller.go:131-133 | once a task is Merged or Closed no call changes which of its pods are there |
| Attempts.LeftoverPodExactly | operator/internal/controller/agenttask_controller.go:363-429 | the pod of a task that becomes Merged or Closed is left behind for good if and only if it was there and either its deletion was not served in that call, or a PR was known and the pod could not answer |
| Witnesses.MergedTaskKeepsPod | operator/internal/controller/agenttask_controller.go:402-404 | some run with honest polls and fresh reads ends Merged with its pod left |
| Attempts.GraduatedExactly | operator/internal/controller/agenttask_controller.go:363-429 | a task that becomes Merged or Closed is graduated, in that call or ever after, if and only if a PR was known and the call found the pod able to answer |
| Witnesses.MergedPrEndsClosed | operator/internal/controller/agenttask_controller.go:375-383 | some run with honest polls, fresh reads and no lost update ends Closed although a person has merged the PR |
| Creations.CreatedOnceExactly | operator/internal/controller/agenttask_controller.go:187-196 | if only the operator removes pods: no pod is ever created twice, if and only if no call acts on a Pending snapshot, is served and finds no pod while that attempt is not the one that is Pending now; stale reads included |
| Creations.PodsCreatedBound | operator/internal/controller/agenttask_controller.go:187-196 | then a run creates each attempt's pod at most once, hence at most M + 1 pods, all under names of attempts made |
| Creations.FreshReadsNeverRecreate | operator/internal/controller/agenttask_controller.go:187-196 | with fresh reads no call is of that kind |
| Pods.LivePodsAreAttempts | operator/internal/controller/agenttask_controller.go:505-508 | in every run, stale reads included, live pods carry names of attempts up to the current retry count |
| Pods.OnlyCurrentPodLivesExactly | operator/internal/controller/agenttask_controller.go:505-526 | at every point of a run at most the current attempt's pod is alive, if and only if no call acts on an earlier attempt's Pending snapshot with agent and creation served, and no call stores a retry although the failed pod, which is there, could not be deleted |
| Pods.OnlyCurrentPodLives | operator/internal/controller/agenttask_controller.go:505-508 | in particular with fresh reads and served deletions |
| Pods.DecisionPods | operator/internal/controller/agenttask_controller.go:181-196 | a decision touches the current attempt's pod only: it creates it only from Pending when it is missing, and removes it only from Failed, Completed or WaitingForPR |
| Pods.OtherPodsUntouched | operator/internal/controller/agenttask_controller.go:555-570 | pods under any other name stay exactly as they are |
| Pods.TasksAreIsolated | operator/internal/controller/agenttask_controller.go:616-620 | reconciling one task leaves another task's pod alone unless their names clash |
| Pods.AttemptNamesAre | operator/internal/controller/agenttask_controller.go:616-620 | the attempt names up to a retry count are exactly the pod names of counts 0 to that count |
| PodNames.PodNameCollision | operator/internal/controller/agenttask_controller.go:616-620 | two attempts of any two tasks share a pod name if and only if they are the same attempt, or one is a first attempt whose task name is the other's name with its retry suffix |
| PodNames.AttemptsDiffer | operator/internal/controller/agenttask_controller.go:616-620 | attempts of one task never share a pod name |
| PodNames.DecimalInjective | operator/internal/controller/agenttask_controller.go:619 | the decimal rendering of retry counts is injective |
| PodNames.DecimalReadsBack | operator/internal/controller/agenttask_controller.go:619 | read digit by digit, the rendering is the retry count, without a leading zero |
| PodNames.PodNameReadsBack | operator/internal/controller/agenttask_controller.go:616-620 | the first attempt's pod is "worker-" and the task name; a later one's has "-r" and its retry count in decimal after that |
| Waiting.PodKnowsPrExactly | operator/internal/controller/agenttask_controller.go:359-397 | with honest polls: at every point of a run the current attempt's pod, if it is there, knows the stored PR, if and only if no call acts on an old Pending snapshot of a waiting task's attempt with another PR or none, is served and finds the pod gone |
| Waiting.MergedIsTrue | operator/internal/controller/agenttask_controller.go:387-397 | in such runs, stale reads and lost updates included, a task stored as Merged has a PR that a person has merged |
| Waiting.FreshReadsNeverMisinform | operator/internal/controller/agenttask_controller.go:387-397 | with fresh reads no call is of that kind |
| Waiting.HumanVerdictIsStored | operator/internal/controller/agenttask_controller.go:387-441 | in every run, a served current call on a waiting task whose pod answers stores what GitHub says of its PR: Merged with PR state "merged", or Closed with "closed", each after the graduate request; any other state is stored as it is, nothing else is touched, and the next call is due in 30 seconds |
| Waiting.ClosedWithoutVerdict | operator/internal/controller/agenttask_controller.go:363-383 | without a PR or a pod that can answer, a served call stores Closed and changes no other field |
| Polls.SuccessIsEarned | operator/internal/controller/agenttask_controller.go:280-295 | with honest polls, stale reads and lost updates included, a task moves from Running to WaitingForPR only when the worker of its current attempt has logged a run in which the model answered and staged changes were committed and pushed; the call sends finalize to that pod before it stores the status, and stores progress 100, completion, PR state "open" and the PR that this run reported, and changes no other field |
| Polls.FailureReasonExactly | operator/internal/controller/agenttask_controller.go:230-322 | under the same conditions, when a task moves from Running to Failed the stored reason is that its pod is gone, that its pod failed, or exactly what the logged end of its worker calls for: nothing staged, a rate limit, or another exception, crashes outside the run included |
| Polls.StoredPrStable | operator/internal/controller/agenttask_controller.go:274-278 | once a PR URL is stored it never changes or empties, stale reads and lost updates included |
| Polls.PrStableExactly | operator/internal/controller/agenttask_controller.go:160-178 | every attempt requested after a PR is stored is given that URL and the task's branch, if and only if no later call requests a pod from a Pending snapshot from before the PR |
| Polls.OnePrAlways | operator/internal/controller/agenttask_controller.go:274-278 | the versions of a status name one PR at most: once one names it, all later ones do |
| Polls.CarryInvAlways | operator/internal/controller/agenttask_controller.go:169-179 | with honest polls, a live pod always carries the PR of its attempt's Pending, Running and Completed statuses, and those agree |
| Polls.NoSecondDraft | worker/src/agent.py:717-744 | no attempt asks GitHub for a draft PR twice, and an attempt that was given a PR never does, stale reads included |
| Drafts.LaterAttemptsAskNothing | operator/internal/controller/agenttask_controller.go:160-178 | under the same condition every pod created after a PR is stored is given it and asks for no draft |
| Drafts.SecondDraftExactly | operator/internal/controller/agenttask_controller.go:274-278 | with fresh reads, a task asks for two drafts or more over all its attempts if and only if it asks for one after it has forgotten one: the pod that asked went away, or was succeeded by a later attempt's, while no PR was stored |
| Witnesses.TaskAsksTwice | operator/internal/controller/agenttask_controller.go:226-236 | for every task with retries, some run with honest polls and fresh reads asks for two drafts |
| Polls.GuardsNeverRefuse | worker/src/main.py:142-156 | a finalize or graduate request that a call sends after a poll reaches a live pod and passes the worker's guards, whatever the worker does in between and whatever snapshot the call has read; the PR marked ready is the one that the call stores |
| Polls.ProgressInRange | worker/src/main.py:254-260 | every stored progress is between 0 and 100, given the worker's clamp, stale reads included |
| Polls.ProgressIsStored | operator/internal/controller/agenttask_controller.go:274-278 | while a worker runs, an answered and served current call stores that worker's progress and changes nothing else |
| Waiting.ProtocolInvAlways | operator/internal/controller/agenttask_controller.go:103-142 | the composed invariant of those runs: pods are sound, the current pod knows the stored PR, Merged is true, progress is a percentage |
| Polls.RequestFollowsPoll | operator/internal/controller/agenttask_controller.go:280-292 | finalize and graduate requests go to the snapshot's live pod, and only after an answered poll of it |
| Operator.AgentTaskReconciler.constructor | operator/internal/controller/agenttask_controller.go:113-117 | a new task: one stored version with the empty phase, no pods, no calls |
| Operator.AgentTaskReconciler.Reconcile | operator/internal/controller/agenttask_controller.go:103-142 | the whole new cluster state and the result of one call are those of the decision for the snapshot read |
| Operator.AgentTaskReconciler.BuildPayload | operator/internal/controller/agenttask_controller.go:157-179 | the branch, merged skills, retry flag and PR of the attempt |
| Operator.AgentTaskReconciler.HandlePending | operator/internal/controller/agenttask_controller.go:146-215 | its effects, calls in order, stored status and result, including a missing agent, a refused creation, an adopted pod and a lost update |
| Operator.AgentTaskReconciler.HandleRunning | operator/internal/controller/agenttask_controller.go:219-264 | the same for each pod phase, a missing pod, a failed lookup and an unanswered poll |
| Operator.AgentTaskReconciler.HandlePolled | operator/internal/controller/agenttask_controller.go:274-339 | finalize is sent before the status is written, exactly when the poll ends the task |
| Operator.AgentTaskReconciler.RecordPoll | operator/internal/controller/agenttask_controller.go:274-322 | the status after an answered poll: an empty PR URL never overwrites a stored one, and rate limits are told apart from other failures |
| Operator.AgentTaskReconciler.HandleWaitingForPR | operator/internal/controller/agenttask_controller.go:359-391 | the same for a missing PR, an unavailable pod and an unanswered poll |
| Operator.AgentTaskReconciler.HandlePrStatus | operator/internal/controller/agenttask_controller.go:393-441 | the same for merged, closed and open PRs, graduation before deletion before the write |
| Operator.AgentTaskReconciler.HandleFailed | operator/internal/controller/agenttask_controller.go:495-552 | cleanup first, then either a retry that keeps the PR and asks for 30 seconds per retry, or the final failure |
| Operator.AgentTaskReconciler.CleanupWorkerPod | operator/internal/controller/agenttask_controller.go:555-570 | the pod is deleted exactly when it is there and the API server serves it |
| Operator.AgentTaskReconciler.GraduateAndTearDown | operator/internal/controller/agenttask_controller.go:397-416 | the graduate request comes before the deletion |
| Operator.AgentTaskReconciler.CreateWorkerPod | operator/internal/controller/agenttask_controller.go:187-196 | a pod that exists already is left as it is |
| Operator.AgentTaskReconciler.UpdateStatus | operator/internal/controller/agenttask_controller.go:205-207 | a lost update leaves the stored versions unchanged |
| Worker.FinalizeNeverRefusedExactly | worker/src/main.py:142-156 | after a poll that read Succeeded, a finalize is accepted at every later point if and only if no event overwrites the record: nobody submits or boots that task again, and no other coroutine of the task ends without success |
| Worker.WorkerInvStep | worker/src/main.py:66-93 | a worker that only the operator drives has at most its one record, which is settled once its coroutine has ended; it asks for at most one draft PR, for none if it was given a PR |
| Worker.WorkerRunKeeps | worker/src/main.py:237-260 | the same over any sequence of events; a final record never changes again |
| Worker.SettledWorkerIsFrozen | worker/src/main.py:237-260 | nothing an operator-driven process does changes a final record |
| Worker.RecordIsLoggedStep | worker/src/main.py:237-251 | an operator-driven worker ends its task once, and its final record is the one that this end left: what the logged run returned, or the failure of the logged exception |
| Worker.Worker.constructor | worker/src/main.py:46 | the registry of a new process is empty |
| Worker.Worker.Lifespan | worker/src/main.py:75-93 | the payload's task is registered as running and started |
| Worker.Worker.CreateTask | worker/src/main.py:120-129 | a posted task replaces any record with its id |
| Worker.Worker.FinalizeTask | worker/src/main.py:141-168 | accepted exactly for a record in phase Succeeded; its PR is the one marked ready |
| Worker.Worker.GetPrStatus | worker/src/github_tools.py:111-131 | for a task with a PR, the answer has GitHub's merged and draft flags and its state, "merged" when merged, "unknown" for a URL that cannot be parsed and "error" when GitHub fails; without a PR it is empty |
| Worker.Worker.GraduateTask | worker/src/main.py:194-219 | an unknown task changes nothing; otherwise memory is graduated with the PR's state as GitHub gives it, which is also the state in the reply; the call fails exactly when a result was found and could not be stored; the shared document is marked merged exactly when GitHub says so |
| Worker.Worker.ExecuteTask | worker/src/main.py:237-251 | the record becomes what the run returned, or a failure, and how the coroutine ended is logged |
| Worker.Worker.UpdateProgress | worker/src/main.py:254-260 | progress is capped at 99 and nothing else in the registry changes |
| Agent.OutcomeSound | worker/src/agent.py:605-694 | every run buffers checkpoints and then exactly one outcome document, in the phase it returns; success means that setup, staging, commit and push went through with staged changes; shared memory is offered one document, with the run's report and skills, exactly for a success that used one of the four skill tools, else nothing |
| Agent.RunRecords | worker/src/agent.py:746-813 | what the last flush leaves: the task gains one document in phase "Succeeded", with the run's skills and report, exactly when the run succeeded and the store took it; failed and incomplete runs add no result; shared memory gains one exactly when the run offered one and the store took it |
| Agent.SuccessIsGraduated | worker/src/memory.py:603-638 | a first success that the store took becomes one shared document with its skills, its report and the outcome of its PR when the task is graduated, and the task's own documents are gone |
| Agent.PhaseExactly | worker/src/agent.py:605-744 | a run succeeds exactly when every step went through and changes were staged, is incomplete exactly when nothing was staged and the model admits failure or used no meaningful tool, and fails otherwise; and exactly when it asks for a draft PR |
| Agent.FirstErrorExactly | worker/src/agent.py:316-813 | the exception that ends a run is that of the first step that raises; committing nothing is one |
| Agent.FailureReported | worker/src/agent.py:815-853 | a run that raised reports Failed, progress 0, the PR it was given, and whether the exception was a rate limit |
| Agent.LlmMemoCheckpoints | worker/src/agent.py:506-527 | all the LLM loop buffers is checkpoints of this task, and nothing for shared memory |
| Agent.CheckpointsExactly | worker/src/agent.py:506-527 | exactly when the loop checkpoints: at each tool call more than 300 seconds after the start, with one "Running" document and a flush of all that is buffered |
| Agent.LastOutputWins | worker/src/agent.py:528-541 | a later output of the model replaces an earlier one and no other event does |
| Agent.LastFlushCompletes | worker/src/agent.py:800-813 | if the last flush is taken in full, the run's memory is complete whatever became of earlier flushes |
| Agent.FlushCount | worker/src/agent.py:506-527 | with n checkpoints and no rejection the task gains (n+1)(n+2)/2 documents |
| Agent.LlmSleepBound | worker/src/agent.py:479-591 | with N tries the loop sleeps at most 15 (2^(N-1) - 1) seconds; if it raises, the exception is one of its tries', and a rate limit only of the last one |
| Agent.TaskSleepBound | worker/src/agent.py:479 | with the three tries of a task, at most 45 seconds |
| Agent.LoopExactly | worker/src/agent.py:479-591 | the loop goes on exactly after rate-limited tries; it ends with the last output of all tries so far, with a plain invocation if there is none, with the empty result at the step limit, or with the error of the try it ends at; after k retried tries it has slept 15 (2^k - 1) seconds |
| Agent.TaskLoopExactly | worker/src/agent.py:479-591 | for the three tries of a task: 0, 15 or 45 seconds |
| Agent.RunTask | worker/src/agent.py:302-853 | status, buffer, indices and draft calls are those of the run's specification, including every path on which a step raises |
| Agent.TrySteps | worker/src/agent.py:316-813 | the same up to the point where the status is known or a step raises |
| Agent.HandleIncomplete | worker/src/agent.py:858-982 | publication of an incomplete run: existing PR kept, draft created otherwise, one task document, nothing shared |
| Agent.RunLlm | worker/src/agent.py:484-591 | the loop over tries, with the output of an earlier try carried into later ones |
| Agent.Stream | worker/src/agent.py:487-541 | one pass over the event stream: the last output, and a checkpoint with flush at every tool call that is due |
| Memory.GraduationExactlyOnce | worker/src/memory.py:603-638 | for any interleaving of graduate calls that the stores answer, shared memory gains exactly one document per called task with a succeeded result, with the text and skills of its latest one and the PR outcome of its first call; called tasks' documents are gone, others are untouched and in order |
| Memory.Knowledge | worker/src/memory.py:610-633 | the shared document carries the text and the skills of the result, with outcome "merged" for a merged PR and "closed without merge" otherwise |
| Memory.SuccessesExactly | worker/src/memory.py:584-597 | the results searched for are exactly the task's documents in phase "Succeeded" |
| Graduation.GainedExactly | worker/src/memory.py:603-638 | for any interleaving and any failures, a task gains one document for each call whose lookup and store answer before its memory is first deleted, each from its latest result, and none without a result |
| Graduation.DuplicatesExactly | worker/src/memory.py:603-638 | its knowledge is shared more than once if and only if two such calls are made |
| Graduation.MemoryAlways | worker/src/memory.py:565-608 | its task memory stays complete until a call that gets to its deletion is served, and is empty from then on |
| Memory.KnowledgeLostExactly | worker/src/memory.py:581-608 | if no shared document carries the text and skills of a task's latest result, graduating the task leaves that knowledge in neither index if and only if the lookup fails and the deletion goes through |
| Memory.AfterAllIs | worker/src/memory.py:603-638 | the two indices after any sequence of graduations, in closed form |
| Memory.EffectiveOnce | worker/src/memory.py:603-638 | the calls that add a document are for distinct tasks, one document each |
| Memory.EffectiveTasks | worker/src/memory.py:603-638 | they are for exactly the called tasks that had a succeeded result |
| Memory.WithoutSound | worker/src/memory.py:565-579 | deleting a task's memory removes all of its documents and keeps all others |
| Memory.OutsideExactly | worker/src/memory.py:565-579 | deleting the memory of any tasks keeps each document of every other task, once and in its place |
| Memory.Latest | worker/src/memory.py:584-597 | the result chosen is one of the given ones and none is later |
| Memory.AcceptedAreOffered | worker/src/memory.py:674-713 | a bulk request stores only documents it was offered |
| Memory.AcceptedExactly | worker/src/memory.py:674-713 | it stores each of them, in order, unless its own position in the request was refused |
| Memory.MemoryStore.constructor | worker/src/memory.py:257 | a store over given index contents |
| Memory.MemoryStore.BulkWrite | worker/src/memory.py:645-727 | the indices gain what is taken of the buffer, the buffer is unchanged, successes and failures add up to what was offered |
| Memory.MemoryStore.GetTaskResult | worker/src/memory.py:581-601 | the latest succeeded result; a failed search reads as none |
| Memory.MemoryStore.DeleteTaskMemory | worker/src/memory.py:565-579 | a failed delete changes nothing and reports 0 |
| Memory.MemoryStore.GraduateToShared | worker/src/memory.py:603-638 | the indices and the answer for every combination of failing lookup, store and delete; what is shared is the latest result's text and skills with the outcome of the PR |
| Memory.MemoryWriteBuffer.constructor | worker/src/memory.py:117-122 | an empty buffer whose last flush is its start |
| Memory.MemoryWriteBuffer.AddTaskMemory | worker/src/memory.py:124-138 | the document is stamped and appended |
| Memory.MemoryWriteBuffer.AddSharedMemory | worker/src/memory.py:140-153 | the document is appended |
| Memory.MemoryWriteBuffer.Clear | worker/src/memory.py:170-175 | the buffer is empty and the last flush is now |
| Retrieval.RankingIsLocal | worker/src/memory.py:193-217 | ranking each index's own stable top `limit` hits gives the stable top `limit` of both full hit lists, task memory first on ties |
| Retrieval.AnsweredSearchIsGlobalTop | worker/src/memory.py:357-417 | whatever indices are asked, the search returns the stable top `limit` of all that they hold, each hit tagged with its index, when the full query is answered, or its retry after a connection or transport failure, or the simple query after both have failed |
| Retrieval.OneIndexSearched | worker/src/memory.py:340-355 | a search of shared memory alone, or of task memory alone, returns that index's own top |
| Retrieval.UnansweredSearchIsEmpty | worker/src/memory.py:374-417 | nothing is returned when no index is enabled, after a permanent failure, and when all levels fail |
| Retrieval.StableSortSound | worker/src/memory.py:213-214 | the sort is a descending, stable permutation |
| Retrieval.StableSortUnique | worker/src/memory.py:213-214 | descending order and the order among ties determine the result |
| Retrieval.SortConcatenation | worker/src/memory.py:211-214 | sorting the concatenation is the stable merge of the sorted parts |
| Retrieval.MergeLocal | worker/src/memory.py:216-217 | the first n of a merge come from the first n of each side |
| Retrieval.MergeAndRankResults | worker/src/memory.py:193-217 | descending, nothing duplicated, invented or mis-tagged, cut as Python slices, negative limits included |
| Retrieval.LadderUnfolds | worker/src/memory.py:374-417 | the search is the first success of full, full and simple; empty after a permanent first error or when all fail |
| Retrieval.LevelFacts | worker/src/memory.py:419-563 | one level sends at most one query per enabled index and answers at most `limit` results in descending order |
| Retrieval.LevelQueriesExactly | worker/src/memory.py:419-563 | the searches that one level sends, each with a timeout of 250 ms: shared memory is not asked after task memory has raised |
| Retrieval.LadderQueriesExactly | worker/src/memory.py:374-417 | the searches of a whole ladder: the full query, once more unless the first failure was another error than those three, and the simple query only after both have failed |
| Retrieval.LadderBudget | worker/src/memory.py:357-417 | a whole ladder sends at most three searches for each enabled index, of 750 ms together |
| Retrieval.NegativeSlice | worker/src/memory.py:216-217 | a negative limit drops that many results from the end |
| Retrieval.Searcher.UnifiedSearch | worker/src/memory.py:357-417 | refines the first success; the searches sent and the time slept exactly (50 ms and the jitter, only after a passing failure), at most 3n queries for n enabled indices, and at most 750n + 100 ms of query timeouts and sleep |
| Retrieval.Searcher.Search | worker/src/memory.py:374-398 | the search up to its retry, with what it returns, sends and sleeps |
| Retrieval.Searcher.FallBack | worker/src/memory.py:390-417 | the retry and the simple query, with what they return and send |
| Retrieval.Searcher.ExecuteFullQuery | worker/src/memory.py:419-501 | its outcome and the queries sent; a failing task-memory search skips shared memory |
| Retrieval.Searcher.ExecuteBm25Query | worker/src/memory.py:503-563 | the same for the simple query |
| DocUpdate.LastWriterWinsExactly | worker/src/agent.py:219-237 | updating with C1 then C2 equals updating with C2 alone on every document, if and only if C1 contains no line break followed by a second-level heading |
| DocUpdate.LastWriterWins | worker/src/agent.py:219-237 | the same law for one document: appended, replaced, repeated and unmatched sections |
| DocUpdate.UpdateTakesEffectExactly | worker/src/agent.py:227-233 | the new section ("## ", heading, line break, content, line break) is in the document afterwards if and only if the heading was absent or occurred followed by a line break; otherwise the document is unchanged |
| DocUpdate.AppendedExactly | worker/src/agent.py:232-233 | a document without the heading gets a line break and the section at its end |
| DocUpdate.SectionsSplit | worker/src/agent.py:228-231 | what is before a second-level heading line and what starts with it are updated on their own, unless the line directly follows an empty section of the updated name |
| DocUpdate.EmptySectionTakesNext | worker/src/agent.py:228-231 | in that one case the following section is taken for the empty section's body and replaced with it |
| DocUpdate.OtherSectionSurvives | worker/src/agent.py:228-231 | a section under another heading survives an update as it is, and the texts on its two sides are updated on their own, unless it follows an empty section of the updated name or ends in its bare heading |
| DocUpdate.NextSectionLost | worker/src/agent.py:228-231 | a document in which an empty section is updated and the section after it is lost |
| DocUpdate.RewriteKeepsOutside | worker/src/agent.py:228-231 | one cut of the text explains the document before and after: only section bodies differ, and no body reaches past a second-level heading |
| DocUpdate.RewriteTwice | worker/src/agent.py:229-231 | rewriting all matching sections twice is rewriting them once with the second text |
| DocUpdate.Workspace.DocUpdate | worker/src/agent.py:219-239 | the file system after the call, for missing, unreadable and unopenable files, rejected replacements, and writes that stop early and leave only the beginning of the new text; for text without a backslash the literal update |
| Skills.MergeSkills | operator/internal/controller/agenttask_controller.go:782-799 | the two loops compute the first occurrences of defaults followed by task skills |
| Skills.MergedSkillsSound | operator/internal/controller/agenttask_controller.go:782-799 | no duplicates, exactly the union, defaults first, each part in its own order |
| Skills.MergeIdempotent | operator/internal/controller/agenttask_controller.go:782-799 | merging again with either input changes nothing |
| Skills.MergeAssociative | operator/internal/controller/agenttask_controller.go:782-799 | merging is associative |
| Skills.AppendUnseen | operator/internal/controller/agenttask_controller.go:786-797 | one loop appends the skills that were not seen, once each |

## Environment

- All results about stored statuses, live pods' names, requested attempts, polls and requests allow
  stale snapshots and lost updates, with one reconciler call at a time and a fixed spec. An update
  built on a stale snapshot is refused.
- Some results exclude one kind of stale call and say which; they are exact about it
  (`Pods.OnlyCurrentPodLivesExactly`, `Creations.CreatedOnceExactly`, `Waiting.PodKnowsPrExactly`,
  `Polls.PrStableExactly`), and `Witnesses.StaleReadRevivesPod` and `Witnesses.StaleReadMergesOther` are runs
  with such calls. `Drafts.SecondDraftExactly`, the bound of 3M + 4, and what happens after a task has
  ended are stated for calls that read the current status.
- Pods may vanish, except in `Creations` and `Attempts.LeftoverPodExactly`, where only the operator
  removes them. In composed runs a pod that has succeeded or failed stays so, and runs no worker.
- The periodic resync of the controller library is not modelled: in `Wakeups` a call is due when it was
  asked for, or when the task or one of its pods has changed.
- Failing calls of Kubernetes, GitHub, git, the model and Elasticsearch are inputs. The looking up and
  deleting of a pod in a cleanup is one such call. A deletion is effective at once.
- Times are kept as set or unset on the status, and as seconds in the memory buffer.
- A commit with nothing staged fails, and the staged diff is read without error.

## Left out

- Status messages, log text and truncation lengths; that a message names a rate limit is an input.
- The pod spec other than its name and payload, owner references, Helm, RBAC and CRD files.
- HTTP, JSON and the Kubernetes, Elasticsearch, GitHub and LangGraph libraries, beyond answering or failing.
- Agent status counts (`updateAgentStatus`): a filter and a length.
- The tools other than `doc_update`, prompt text and model behaviour beyond raising, answering and the tools called.
- Elasticsearch refresh delay, partial deletes, and ties among equal timestamps, which the model resolves by index order.
- Index creation checks before each query, so their time is not in the search budget.
- Task names shared across namespaces, and GitHub's own rule against duplicate PRs.
- A draft PR that GitHub creates although the call raises: its URL is not reported, and the next attempt asks again.
- DocUpdate.Workspace.DocUpdate: replacements with a backslash are a parameter, because they depend on the template rules of Python's `re`; line endings are not normalised.
- Agent.RunTask: the tries of the LLM loop are a non-empty list of any length, three in the code; both clock reads of the flush test see the same time.
- Memory.MemoryStore.BulkWrite: which documents are refused is an input, also when the call raises.
- Retrieval.MergeAndRankResults: every hit has a score, as every caller in the code provides; a hit's other fields are one opaque value.
- The order in which the operator's request and the worker's coroutines interleave inside one route: a route is one step.
