# Verified model of the agentic research workspace

A Dafny model of the parts of the server where state, interleaving or arithmetic decide
whether the system keeps its promises, with proofs about every input, every run or every
reachable state.

| file | models |
|---|---|
| `ToolActions.dfy`, `Protocol.dfy`, `ProtocolTheorems.dfy`, `ProtocolSteps.dfy`, `Phase4.dfy` | the intent, approval and single-claim ledger; its interleaved use by graph processes and humans; the sequential code that drives it |
| `TaskQueue.dfy`, `WorkerRuntime.dfy`, `WorkerTheorems.dfy`, `RetryBound.dfy`, `DurableSystem.dfy` | the versioned task record, the job queue, worker deliveries, failures, crashes and stalled-job recovery; ledger and queue together |
| `ResearchGraph.dfy`, `ResearchNodes.dfy`, `ResearchReservation.dfy`, `ResearchPolicy.dfy`, `ResearchTaskPlan.dfy`, `ResearchBound.dfy` | the cyclic research graph: termination, the attempt held back for the external fallback, source policy, task plan statuses |
| `ContextHarness.dfy`, `ContextPreparation.dfy` | packing a conversation into a token budget |
| `BudgetManager.dfy`, `AgentRuns.dfy`, `BudgetConservation.dfy`, `BudgetRuns.dfy`, `BudgetClock.dfy` | the shared budget of a multi-agent run |
| `Ranking.dfy`, `Bm25.dfy`, `Fusion.dfy`, `Coverage.dfy` | the inverted index, rank fusion, fair merge and coverage selection |
| `Metrics.dfy` | ranking metrics |
| `RefreshTokens.dfy`, `MemoryStore.dfy` | token families and memory supersession |
| `Wrappers.dfy`, `Basics.dfy` | result types and small helpers |

`dafny verify dfyconfig.toml` checks everything.

## How the code is modelled

Each store or service that updates rows in place is a class. Its methods follow the source
statement by statement and are proved equal to a function on row values; the invariants and
the theorems about whole runs are proved about those functions. Of each such function a lemma,
its name ending in `Exactly`, says from the inputs alone when it succeeds, what it then changes
and that it changes nothing else. Code that interleaves is a
state machine whose steps are the source's database transactions: every order of steps is a
run. What a model, a tool, a human or the network answers is an arbitrary parameter of a step.

Assumptions, made once:

- hashes are injective, and a hash stands for what it hashes; fresh ids are fresh, so rows
  are numbered in the order of their creation;
- reals stand in for floats; `log1p` and `log2` are parameters with the sign and the
  monotonicity stated where they are used;
- `count_tokens_approximately` is, for each message, three plus its characters (content and
  fixed parts) divided by the characters per token, rounded up;
- the policy and the tool catalogue do not change during a run, so a tool's name stands for
  its descriptor;
- the job framework keeps one queued job per task and hands a job to a worker only while it
  is queued; which jobs it calls stalled is arbitrary.

## What the code does not promise

Findings. Each has a lemma that states exactly when the property does hold, and a run or an
input on which it does not.

- Retries: `recover_stalled` decides in one transaction and calls the framework's retry
  after it. A retry decided while the same job is still queued, being delivered or already
  being recovered buys one more attempt than the limit. For every limit and every number of
  overlaps the bound with one attempt for each is reached (`RetryBound.BoundIsReached`), so
  retries stay within the limit exactly when there is no overlap
  (`RetryBound.LimitHoldsWithoutOverlaps`).
- Research graph: with `PLANNER_MAX_ITERATIONS` of one nothing can be held back for the
  external fallback (`ResearchReservation.OneAttemptAnswersAnyway`); from two on the
  reservation holds in every run.
- Context: a memory is built as soon as more than twelve tokens remain, and fitting it raises
  when they are at most 25, although the kept messages fit
  (`ContextPreparation.DueMemoryRaises`, `ContextPreparation.RaisesThoughKeptFits`).
- Source scope: the comment at `server/agent/research_workflow.py:39` says that an
  instruction can only narrow a requested scope. A request for external sources only whose
  question says "only the documents" is served from the workspace alone
  (`ResearchPolicy.RequestedScopeKept`, `ResearchPolicy.ExternalRequestServedLocally`).
- Budget: recording earlier calls replaces the phase counts, so the ledger stays in balance
  exactly when nothing was counted before (`BudgetConservation.RecordPreExactly`,
  `BudgetRuns.LateRecordingBreaks`); counting an LLM call without a reservation breaks it
  exactly when the run has a budget to bypass (`BudgetConservation.CountCallExactly`,
  `BudgetRuns.UnreservedCallBreaks`).
- Rank fusion: a document found by two rankings comes before every document found by one
  exactly when the product of the lengths, each less one, is below 3721
  (`Fusion.BothFirstExactly`); 61 is the longest common limit (`Fusion.SixtyOneAtMost`).
- Refresh tokens: logging out with a token that was already rotated does not end the session
  (`RefreshTokens.LogoutEndsExactly`, `RefreshTokens.RotatedLogoutKeepsSession`).
- Memory: an update is several transactions. Two updates that interleave can supersede one
  another, and then no chain from them ends (`MemoryStore.InterleavedUpdatesCycle`). A
  retrieval writes back what it read, and can make a superseded record active again
  (`MemoryStore.RetrievalRevives`). Every chain ends exactly when neither happens
  (`MemoryStore.SupersessionTerminates`).

## Model

| member | source | states |
|---|---|---|
| `ProtocolTheorems.AtMostOneCall` | server/phase4.py:144-200 | On every interleaving of requests, reviews, resumptions, claims, provider calls, finishes, crashes, decisions and cancellations, no execution is called twice, and no two calls serve the same durable intent (task or run, step, tool, requested arguments) |
| `ProtocolTheorems.CallsAreAuthorized` | server/phase4.py:157-184 | Every call of a tool that needs approval rests on one human answer, the only one ever taken on that approval: Approve, and it carries the requested arguments, or an edit of title and body, and it carries the requested arguments with exactly that edit; the approval is consumed by this call and no other |
| `ProtocolTheorems.RejectedNeverCalled` | server/tool_actions.py:128-130 | After a human rejects an approval, on every continuation, no call is made under its execution, now or later |
| `ProtocolTheorems.RejectionLasts` | server/tool_actions.py:113-130 | The same from any state that satisfies the invariant |
| `ProtocolTheorems.ApprovedIsCalled` | server/tool_actions.py:109-159 | From any reachable state a new sensitive intent that is approved, or edited within the policy, is claimed and called once with exactly the approved arguments, and its outcome is recorded |
| `ProtocolTheorems.GuardMeansAuthorized` | server/phase4.py:114-124 | In every reachable state a sensitive call that the guard lets pass was authorized by an approval or an edit for exactly these arguments |
| `ProtocolSteps.SucceededWasCalledOnce` | server/phase4.py:181-200 | On every run an execution recorded as succeeded has called the provider exactly once |
| `ProtocolSteps.StartExactly` | server/phase4.py:148-151 | A process starts exactly if the policy accepts its arguments and the request is recorded or found |
| `ProtocolSteps.ReviewExactly` | server/phase4.py:157-167 | In every safe state a review goes straight to the claim without an approval or with a consumed one, and otherwise shows the approval as it is |
| `ProtocolSteps.ResumeExactly` | server/phase4.py:166-172 | A resumed process goes on exactly if the answer names the approval it was shown, that approval was decided, and its effective arguments are acceptable |
| `ProtocolSteps.CallExactly` | server/phase4.py:181-187 | The provider is called exactly if it is connected and the guard passes, once, with the arguments of the claim; success is reported only after a call |
| `ProtocolSteps.GuardExactly` | server/phase4.py:114-124 | In any ledger the guard of a sensitive tool passes exactly for a running execution of this tool with these arguments and a consumed approval that was approved or edited |
| `ProtocolTheorems.GuardAgreesWithClaim` | server/phase4.py:114-124 | In every reachable state, a process that holds a claim passes the guard in front of the provider: its arguments were accepted before the claim, and the guard's other checks agree with it |
| `ProtocolTheorems.StuckForever` | server/tool_actions.py:134-170 | A claim that failed, or whose process is gone, keeps its row unchanged on every continuation, and no later call is made under it |
| `ProtocolTheorems.RunKeepsSafe` | server/tool_actions.py:77-183 | The invariant behind these theorems (processes, calls, decisions and rows agree) holds in every reachable state |
| `ProtocolTheorems.ReachableLinked` | server/tool_actions.py:172-183 | What the cancellation loop relies on, that each approval belongs to one execution that waits while the approval is open, holds in every reachable state |
| `ToolActions.RequestKeepsConsistent` | server/tool_actions.py:77-107 | A request keeps executions, approvals and the unique intent index coupled, whether it finds the intent, inserts it, or raises |
| `ToolActions.KeysAreIntents` | server/tool_actions.py:77-92 | Two requests share a key exactly if owner, step, tool and arguments agree; reads and native calls without approval never share one |
| `ToolActions.RequestingExactly` | server/tool_actions.py:77-107 | A request raises exactly for a new sensitive intent without a task step; a known intent is found unchanged; a new one is recorded with its own arguments and waits for its own pending approval exactly if it needs one |
| `ToolActions.DecidingExactly` | server/tool_actions.py:109-132 | A decision succeeds exactly on a pending, unconsumed approval with an acceptable verdict; Reject declines, Approve approves, an edit merges its title and body; nothing else changes |
| `ToolActions.ClaimingExactly` | server/tool_actions.py:134-159 | A claim is granted exactly to an execution without approval that was requested, or with a decided, unconsumed, not declined approval, and then runs with exactly its effective arguments; settled executions are replayed, running and failed ones refused, declined ones rejected |
| `ToolActions.FinishingExactly` | server/tool_actions.py:161-170 | Only a running execution finishes; a later claim of it replays the success or is refused for the failure |
| `ToolActions.CancellingExactly` | server/tool_actions.py:172-183 | Cancelling withdraws exactly the open approvals of the task and cancels exactly their executions |
| `ToolActions.DecideKeepsConsistent` | server/tool_actions.py:109-132 | A decision keeps the coupling and, through the policy checks, changes nothing but title and body |
| `ToolActions.ClaimKeepsConsistent` | server/tool_actions.py:134-159 | A claim consumes the approval and binds the edited arguments together with the status, or changes nothing |
| `ToolActions.FinishKeepsConsistent` | server/tool_actions.py:161-170 | Finishing a claim keeps the coupling; only a running execution can be finished |
| `ToolActions.CancelPendingKeepsConsistent` | server/tool_actions.py:172-183 | Cancelling a task keeps the coupling of every row |
| `ToolActions.CancelTouchesOnlyWaiting` | server/tool_actions.py:172-183 | Cancelling changes an execution only if it was waiting for its approval, so never a claimed one |
| `ToolActions.ToolActionStore.Request` | server/tool_actions.py:77-107 | The method in place equals the transaction on row values: same rows, same result, same errors |
| `ToolActions.ToolActionStore.Decide` | server/tool_actions.py:109-132 | As above, with the order of the checks of a decision |
| `ToolActions.ToolActionStore.Claim` | server/tool_actions.py:134-159 | As above, with every way in which a claim is replayed, refused, rejected or granted |
| `ToolActions.ToolActionStore.Finish` | server/tool_actions.py:161-170 | As above, for success and failure |
| `ToolActions.ToolActionStore.CancelPending` | server/tool_actions.py:172-183 | The loop over the approvals of a task, in any order, ends with every open approval and its execution cancelled and all other rows untouched |
| `Phase4.Phase4Services.Execute` | server/phase4.py:145-213 | The sequential code leaves the ledger, the call log and the parked task as the steps of one protocol process do, reports success only after a call, and answers an intent that was carried out or rejected before with that outcome and without a call |
| `Phase4.RequestParks` | server/phase4.py:157-163 | A new sensitive intent of a step parks its running task; an unacceptable or insensitive one, or an idle task, changes no task |
| `Phase4.ParksOnlyRunning` | server/phase4.py:161-163 | Parking changes only the status of a running task, while some approval is pending |
| `Phase4.Phase4Services.GuardCall` | server/phase4.py:114-124 | The guard, check by check, answers what the protocol assumes of it |
| `Phase4.Phase4Services.Decide` | server/phase4.py:215-239 | A decision needs a waiting task and is durable first; the task is enqueued only in worker mode and only when none of its approvals is pending; inline, the run that follows is a process of the protocol |
| `Phase4.RunIsPhases` | server/phase4.py:151-200 | Running the steps of one process is the composition of request, review, claim, call and finish |
| `Phase4.ExecutionIsSafe` | server/phase4.py:145-200 | The steps of one execution keep every guarantee of the protocol, after any earlier run and whatever is still in flight |
| `TaskQueue.TaskTables.SaveTask` | server/task_queue.py:47-57 | Every write moves the version by one and appends one event |
| `TaskQueue.TaskTables.Enqueue` | server/task_queue.py:95-120 | An enqueue checks legality, cancellation, pending approvals and the queueing lock, and installs a new job at the next version; otherwise nothing changes |
| `TaskQueue.TaskTables.RequestControl` | server/task_queue.py:122-139 | A pause or cancel request marks a running task, and stops a queued or idle one together with its queued job |
| `TaskQueue.TaskTables.Transition` | server/tasks.py:143-162 | A transition outside the table is refused; a legal one changes status and version |
| `TaskQueue.TaskTables.WaitForApproval` | server/tasks.py:191-199 | Parking writes the waiting status without looking at the old one |
| `TaskQueue.TaskTables.ClaimDelivery` | server/worker_runtime.py:58-101 | The claim block: stale generations and idle tasks are ignored; control requests, unknown writes and lost authorization end the delivery; otherwise one attempt starts |
| `TaskQueue.DeliveringExactly` | server/worker_runtime.py:58-101 | A delivery starts a task exactly when it is its current job, the task waits or runs, neither flag is set, no external write is unknown and it is authorized; otherwise the task is cancelled, paused, put into reconciliation or failed, in this order, or nothing changes |
| `TaskQueue.EnqueueingExactly` | server/task_queue.py:95-120 | An enqueue succeeds exactly for a task in a status to start or resume from that is not cancelled, awaits no approval and has no waiting job; its new row and job are given field by field |
| `TaskQueue.ControllingExactly` | server/task_queue.py:122-139 | A control request is refused exactly for a finished task; it marks a running one, and stops any other together with its waiting job |
| `TaskQueue.TransitioningExactly` | server/tasks.py:143-162 | Nothing leads out of a finished status, only a running task finishes or waits, and everything else of the row stays |
| `TaskQueue.FailingExactly` | server/worker_runtime.py:113-134 | A failure block ends in the first that applies of cancelled, reconciliation, queued within the limit, kept, or failed, and asks for a retry exactly when it queued the task |
| `TaskQueue.RecoveringExactly` | server/worker_runtime.py:143-158 | A stalled job is retried exactly when it is the job of a waiting or running task with all writes known and attempts left |
| `TaskQueue.SteppingExactly` | server/tasks.py:130-199 | Parking, planning and starting a step change at most the status, or that there is a plan |
| `WorkerTheorems.CancelledNeverStarts` | server/worker_runtime.py:67-70 | From the moment cancelling is requested, no step of any continuation adds an attempt |
| `WorkerTheorems.PausedUntilEnqueued` | server/worker_runtime.py:67-70 | From the moment pausing is requested, no step adds an attempt until the task is enqueued again |
| `WorkerTheorems.WaitingJobStarts` | server/worker_runtime.py:58-101 | An authorized delivery of the current job of an undisturbed task starts it |
| `WorkerTheorems.ResumedStarts` | server/task_queue.py:95-120 | A paused task that is enqueued again, fetched and delivered starts |
| `WorkerTheorems.FailedStartsAgain` | server/worker_runtime.py:113-134 | A run that fails for a retryable reason within the limit is queued and starts again on its next delivery |
| `TaskQueue.TaskTables.HandleFailure` | server/worker_runtime.py:113-134 | The failure block: the order of cancelled, unknown write, retry within the limit, and failure, and whether a retry is raised |
| `TaskQueue.TaskTables.RecoverStalled` | server/worker_runtime.py:139-172 | The recovery loop settles each stalled job and counts what it did |
| `TaskQueue.SweepSettlesEveryJob` | server/worker_runtime.py:143-172 | An undisturbed sweep counts each stalled job once as retried or ignored, leaves none of them in the doing state, and changes no other job |
| `TaskQueue.SweepDecides` | server/worker_runtime.py:143-172 | Each stalled job in turn is retried or finished as decided for it, and counted as that |
| `TaskQueue.SweepKeepsQuarantine` | server/worker_runtime.py:143-158 | A sweep never starts or retries a task with an unknown external write: its status stays or requires reconciliation |
| `TaskQueue.EnqueueKeepsGenerations` | server/task_queue.py:95-120 | An enqueue makes a fresh job current at a version larger than every earlier one of the task; all older jobs stop being current |
| `WorkerTheorems.AttemptsBounded` | server/worker_runtime.py:94-101 | In every run the attempts of a task equal its worker starts and stay within enqueues plus the retry limit plus overlapping recoveries, across pauses, resumes, failures and crashes |
| `RetryBound.BoundIsReached` | server/worker_runtime.py:139-172 | For every retry limit, every positive number of enqueues and every number of overlapping recoveries, some run makes exactly enqueues plus limit plus overlaps attempts |
| `RetryBound.RetriesExactly` | server/worker_runtime.py:94-101 | The numbers of retries that all runs with given enqueues and overlaps keep within are exactly those from the limit plus the overlaps on |
| `RetryBound.LimitHoldsWithoutOverlaps` | server/worker_runtime.py:151-165 | Attempts stay within enqueues plus the limit, on all such runs, exactly when no recovery overlaps |
| `RetryBound.OverlapBuysAnAttempt` | server/worker_runtime.py:139-172 | Under any limit, one enqueue and one overlapping recovery can make an attempt beyond the limit |
| `WorkerTheorems.NextAdvances` | server/task_queue.py:47-57 | Every step raises the version of a row it changes, replaces a job only by one never used before, and adds an attempt only in the claim block |
| `WorkerTheorems.SupersededForever` | server/worker_runtime.py:58-66 | A delivery of a superseded job leaves every table unchanged, now and after any further steps |
| `WorkerTheorems.OneClaimablePerTask` | server/worker_runtime.py:63-66 | In every reachable state, of two jobs of one task only the newer, queued at the larger version, can be current |
| `WorkerRuntime.SaveLoadedKeepsWork` | server/tasks.py:86-98 | A save of a task loaded in an earlier transaction succeeds only if the row is still the one loaded |
| `WorkerTheorems.QuarantineHolds` | server/worker_runtime.py:71-74 | While an external write of a task has an unknown outcome no step starts the task on a worker |
| `WorkerRuntime.RunKeepsWork` | server/worker_runtime.py:52-172 | The invariant that links attempts, enqueues, queued jobs, deliveries and pending retries holds in every reachable state |
| `DurableSystem.OneCallPerIntent` | server/phase4.py:144-200 | Ledger and queue together, in any interleaving: at most one call per durable intent, and bounded attempts for every task |
| `DurableSystem.UnknownOutcomeQuarantinesTask` | server/worker_runtime.py:71-74 | Once an external write has an unknown outcome, on every continuation its row never changes, nothing is called under it, and its task never starts again |
| `ResearchGraph.RunTerminates` | server/agent/graph.py:101-146 | Whatever the models and tools answer, a run visits at most 2*iterations + 2*(min(2,rewrites)+replans+1) + 8 nodes, ends within that many answers, and never spends more attempts than allowed |
| `ResearchGraph.VisitDecreases` | server/agent/research_workflow.py:61-98 | Every node visit lowers the measure, and an executor visit spends exactly one attempt while no other visit spends any |
| `ResearchBound.BoundAttainedExactly` | server/agent/graph.py:97-146 | Some run reaches the bound exactly under settings that let every allowance be used: an external source, self-correction and planning where rewrites and replans are allowed, a grounding check with a revision, more attempts than corrections, and no more than plans and corrections can spend |
| `ResearchBound.BoundIsAttained` | server/agent/research_workflow.py:164-177 | A run that reaches it, under any such settings |
| `ResearchBound.DefaultsReachTheBound` | server/agent/research_workflow.py:164-177 | With the default settings a run makes 32 visits |
| `ResearchGraph.AdmitSteps` | server/agent/research_workflow.py:80-86 | The planning loop keeps, in order, the steps whose sources survive the scope and the selection |
| `ResearchGraph.CallTools` | server/agent/research_workflow.py:111-132 | The executor loop calls each source in order, collects evidence, logs each call and counts the failures |
| `ResearchGraph.MarkSteps` | server/agent/research_workflow.py:138-149 | The evaluator sets the result of its own step and, once the attempts are spent, fails exactly the later ones |
| `ResearchReservation.AnsweringNeedsAReason` | server/agent/research_workflow.py:164-177 | With two iterations or more, grading leads to an answer exactly when the grade is missing, or is relevant and sufficient over some evidence, or no fallback is open and attempts or corrections are exhausted; stated over the model's answer and the state before |
| `ResearchReservation.CorrectionsInOrder` | server/agent/research_workflow.py:164-175 | Otherwise the next node is the refiner, the replanner or the fallback, in this order, each exactly under its own condition |
| `ResearchNodes.AllowedExactly` | server/agent/research_workflow.py:28-34 | Exactly the available sources in scope are allowed, each once, the workspace standing in for its plain reader |
| `ResearchNodes.AllowedOrders` | server/agent/research_workflow.py:28-34 | They are asked in the order in which the proposal names them |
| `ResearchNodes.AnalysisSelects` | server/agent/research_workflow.py:36-64 | The analysis selects the local source if there is one in scope, otherwise what it found, or every external source for an external request that found none; retrieval and planning follow from that and the question |
| `ResearchNodes.PlannerPlansExactly` | server/agent/research_workflow.py:69-92 | The planner keeps, within the step limit beside the reserve, exactly the steps with an allowed and selected source, and otherwise plans the one step over everything selected |
| `ResearchNodes.ExecutionCollects` | server/agent/research_workflow.py:94-134 | An executor visit asks every allowed source of its step once, adds exactly the evidence found, fails exactly if every source did, and spends one attempt |
| `ResearchNodes.RefinerPlansExactly` | server/agent/research_workflow.py:182-198 | A refinement plans one step with the rewritten or the old question over local sources while a fallback is open, and counts one rewrite |
| `ResearchNodes.FallbackAsks` | server/agent/research_workflow.py:200-205 | The fallback asks the academic or the web source, or the other if the first is not allowed, and is used up |
| `ResearchNodes.RevisedExactly` | server/agent/research_workflow.py:210-228 | An answer is revised exactly once at most, when retrieval and checking are on and it is not grounded in some evidence |
| `ResearchReservation.RunReserves` | server/agent/research_workflow.py:69-79 | While external sources are allowed and the fallback has not run, attempts plus unexecuted plan steps stay below the limit in every reachable state |
| `ResearchReservation.OneAttemptAnswersAnyway` | server/agent/research_workflow.py:164-177 | With one iteration every grading is followed by an answer and no run reaches the fallback |
| `ResearchReservation.FallbackRetrieves` | server/agent/research_workflow.py:200-205 | A chosen fallback is followed by an executor visit that spends one attempt and calls at least one external tool, and only external ones, with the user's query |
| `ResearchPolicy.LocalEvidenceFirst` | server/agent/research_workflow.py:31-37 | In every run only available sources inside the scope are called, and before the fallback, while a local source may be searched, only local ones |
| `ResearchPolicy.RequestedScopeKept` | server/agent/research_workflow.py:39-50 | A call is inside the requested scope unless the request was external only and the question was read as documents only; then every call is outside it |
| `ResearchPolicy.ExternalRequestServedLocally` | server/agent/research_workflow.py:39-50 | A run that was asked for external sources only and searches the workspace |
| `ResearchTaskPlan.TaskPlanSettled` | server/agent/research_workflow.py:136-150 | When grading starts, the executed steps of a task plan carry exactly their results in order and the others failed because no attempt was left; afterwards no step is pending |
| `ContextHarness.FitMessages` | server/agent/context_harness.py:221-262 | The loop returns exactly what the passes leave, with some texts cut, each keeping a beginning and an end of its original, and within the budget, untouched if they fit already; it raises only if the estimate with every text capped (53 characters at two per token) exceeds the budget, and always if the texts cannot shrink enough |
| `ContextHarness.PassesSpent` | server/agent/context_harness.py:229-256 | Fitting ends after three passes for each message, and earlier only if the messages fit or nothing would change |
| `ContextHarness.CutSettles` | server/agent/context_harness.py:242-256 | One cut of a text above the cap brings the estimate within the budget or the text to the cap, so the iteration limit never causes a failure |
| `ContextHarness.TruncateShortens` | server/agent/context_harness.py:322-341 | A text within the target is unchanged. A longer one becomes its first characters, the marker and its last ones: 65 percent of what remains beside the marker and the rest, at least six each, less only the white space next to the marker; it is never longer than before and at most one character above the target |
| `ContextHarness.TruncateKeepsEnds` | server/agent/context_harness.py:322-341 | However often a text is cut, it begins with a beginning and ends with an end of the original, and of its first and last six characters only white space is lost |
| `ContextHarness.TargetExactly` | server/agent/context_harness.py:244-247 | The target of a cut is the cost of the text less the excess and a margin of four tokens, and never below 24 |
| `ContextHarness.CutIsSparing` | server/agent/context_harness.py:244-256 | With at least one character per token a cut above the smallest target saves the excess and at most five tokens more, if no white space is lost |
| `ContextHarness.CutBetween` | server/agent/context_harness.py:221-262 | Cut messages cost no more than the originals, no less than the bare markers, and within the cap no more than the capped estimate |
| `ContextHarness.Largest` | server/agent/context_harness.py:234-242 | The loop finds the last among the longest texts that may still be cut, if there is one |
| `ContextHarness.LargestIndex` | server/agent/context_harness.py:234-242 | The one found is above the threshold, no text is longer, and every later one is shorter; there is none exactly when no text is above it |
| `ContextHarness.FitCuts` | server/agent/context_harness.py:221-262 | Whatever the passes do is a cut of the original messages, and they leave the messages within the budget or no text above the cap |
| `ContextHarness.GroupTurns` | server/agent/context_harness.py:294-306 | The loop equals the recursive grouping |
| `ContextHarness.TurnsPartition` | server/agent/context_harness.py:294-306 | Grouping loses and reorders nothing and cuts exactly before the human messages |
| `ContextHarness.TurnsUnique` | server/agent/context_harness.py:294-306 | It is the only such partition |
| `ContextPreparation.Configure` | server/agent/context_harness.py:55-95 | Construction succeeds exactly on valid limits; the input budget is the largest within its own and the provider's limit, the memory allowance the largest within its own and half of that budget, and the rest is kept |
| `ContextPreparation.Harness.SelectTurns` | server/agent/context_harness.py:122-152 | The backward scan with its break and its reserve equals the selection function |
| `ContextPreparation.SelectsExactly` | server/agent/context_harness.py:127-152 | The scan keeps turns that each fit beside the later ones with the reserve held back, and ends at the oldest considered or before the first that does not fit; a newest turn that does not fit is kept |
| `ContextPreparation.ReserveExactly` | server/agent/context_harness.py:131-138 | The reserve is the largest amount within the allowance and a third of what is left, and nothing without older turns |
| `ContextPreparation.SplitExactly` | server/agent/context_harness.py:113-121 | System messages and conversation are together all messages |
| `ContextPreparation.SplitConcat` | server/agent/context_harness.py:113-121 | Both keep the order of the source |
| `ContextPreparation.KeptSuffix` | server/agent/context_harness.py:154-158 | What is dropped followed by what is kept is the whole conversation; the newest turn is kept, and at most the configured number of turns |
| `ContextPreparation.KeptFits` | server/agent/context_harness.py:127-152 | If the newest turn fits, the kept turns fit beside the system messages, and the turn before them was too old or did not fit |
| `ContextPreparation.KeptVerbatim` | server/agent/context_harness.py:160-180 | If the newest turn fits, the result is the system messages, the memory and the kept turns word for word |
| `ContextPreparation.PairsSurvive` | server/agent/context_harness.py:148-152 | If calls and replies share turns in the source, the compacted context answers exactly the tool calls it contains |
| `ContextPreparation.BuildMemory` | server/agent/context_harness.py:193-219 | The memory holds one line for each non-blank user or final assistant message of the dropped turns, cut to its allowance, and is absent if there is no line |
| `ContextPreparation.LineExactly` | server/agent/context_harness.py:199-212 | Only a non-blank text of the user, or of the assistant without calls, gives a line, which names the speaker and carries the excerpt of the stripped text |
| `ContextPreparation.JoinExactly` | server/agent/context_harness.py:217-217 | A memory is its header, then every line after a line break |
| `ContextPreparation.Harness.Prepare` | server/agent/context_harness.py:97-191 | A source within the budget is returned unchanged; otherwise a normal return is a compacted context within the budget with an exact report; it may raise only if the due memory, or without one the kept messages, exceed their allowance with every text capped, and must if they do with bare markers; the last report changes only on success |
| `ContextPreparation.DueMemoryRaises` | server/agent/context_harness.py:160-180 | At two characters per token a due memory always raises with an allowance of at most 25 tokens and never with 33 or more |
| `ContextPreparation.RaisesThoughKeptFits` | server/agent/context_harness.py:160-180 | Under any such settings: two questions, of which the newer one fits with 13 to 25 tokens to spare, make preparing raise |
| `BudgetConservation.RecordPreExactly` | server/agent_runs.py:199-214 | Recording earlier calls keeps the ledger balanced exactly when the supervisor's budget had counted nothing (or, on a delegated run, there is nothing to record or erase) |
| `BudgetConservation.CountCallExactly` | server/agent_runs.py:161-171 | A counted call keeps the ledger balanced exactly when it does not bypass a budget |
| `BudgetRuns.LateRecordingBreaks` | server/agent_runs.py:199-214 | Under any limits, earlier calls recorded after the first reserved call break the balance |
| `BudgetRuns.UnreservedCallBreaks` | server/agent_runs.py:161-171 | Under any limits, a supervisor's LLM call counted without a reservation breaks the balance |
| `BudgetConservation.ReserveLlmKeepsLedger` | server/agent_runs.py:216-230 | Reserving an LLM call charges row and budget together, also when the row is the supervisor's own; an error leaves every counter as it was |
| `BudgetConservation.CreateDelegationKeepsLedger` | server/agent_runs.py:114-135 | A delegation adds a row, a blank run and a charge together, or changes no counter |
| `BudgetConservation.AddUsageKeepsLedger` | server/agent_runs.py:173-197 | Token samples reach the row and the budget, also when both are one row |
| `BudgetRuns.RunConserves` | server/agent_runs.py:114-251 | Over every run of the operations, called as their callers may, LLM calls, tool calls, known tokens and samples of a budget equal the sums over its rows, phase counts agree phase by phase and add up to the calls, and delegations, reviews and redelegations equal row counts |
| `BudgetRuns.ErrorsChangeNoCounter` | server/agent_runs.py:240-251 | A step that raises leaves everything unchanged, except that a denial marks one budget exhausted |
| `BudgetRuns.FinalizerShare` | server/agent/efficiency.py:77-109 | If earlier calls fit beside the held-back share, no budget ever counts more LLM calls than its maximum, and no finalizing call is refused for its count while fewer than min(4, max-1) have run |
| `BudgetRuns.DenialIsFinal` | server/agent/efficiency.py:83-103 | After a denial and any further steps, every reservation outside the finalizing phases, of any kind and by any run charged to the budget, raises for the same first reason and moves no counter |
| `BudgetClock.ElapsedIsActiveTime` | server/agent/efficiency.py:50-75 | Over every run, the elapsed time that the wall-time limit is checked against is the time since the creation of the budget without its pauses |
| `BudgetClock.ReasonsListedOnce` | server/agent/efficiency.py:100-103 | Over every run of calls as their callers may make them, a budget lists each reason once |
| `BudgetClock.RecordingListsExactly` | server/agent_runs.py:211-213 | Recording earlier calls lists a reason twice exactly when it reaches the maximum and the reason was listed before |
| `BudgetManager.Ledger.Reserve` | server/agent/efficiency.py:77-109 | The mutating method equals the reservation function, reason by reason |
| `BudgetManager.ReservingExactly` | server/agent/efficiency.py:77-109 | A reservation is granted exactly if no denial stands against its phase, its count, review and redelegation count are below their limits beside the calls held back, wall time is left and the known tokens are below their limit; granting moves its own counts by one and nothing else |
| `BudgetManager.RefusalHasReason` | server/agent/efficiency.py:83-103 | A refusal names the first reason of the standing denial or one that applies, and records it |
| `BudgetClock.LimitsHold` | server/agent/efficiency.py:86-99 | Over every run of calls as their callers may make them, tool calls, delegations, reviews and redelegations each stay within their limits (for LLM calls see `BudgetRuns.FinalizerShare`) |
| `BudgetClock.GrantedExactly` | server/agent/efficiency.py:77-109 | In every balanced store, an operation that reserves is denied by the budget exactly when a count, the active time or the tokens reached their limit, or an earlier denial stands |
| `AgentRuns.AgentRunStore.ReserveLlm` | server/agent_runs.py:216-230 | The method that reloads its row after the reservation equals the function on rows |
| `AgentRuns.ReservingLlmExactly` | server/agent_runs.py:216-230 | It fails exactly for an unknown run, a call or iteration limit that is reached, or a refused budget; otherwise the row counts one call, its phase, and an iteration if they are limited |
| `AgentRuns.CallsExactly` | server/agent_runs.py:161-171 | A counted call fails exactly for an unknown run, a limit that is reached, or, for a tool call, a refused budget; otherwise its own counter moves by one |
| `AgentRuns.DelegatingExactly` | server/agent_runs.py:114-135 | A new delegation fails exactly at the maximum, for an unknown supervisor or a refused budget; otherwise one blank run and one row of it are added |
| `AgentRuns.SupervisorCreatedExactly` | server/agent_runs.py:80-96 | A task has one supervisor, found again instead of created; a created one is blank with a blank budget |
| `AgentRuns.SamplingExactly` | server/agent_runs.py:173-189 | A sample adds to the tokens of the row, which are complete exactly when there is a sample for each call |
| `AgentRuns.SamplingBudgetExactly` | server/agent_runs.py:190-197 | The same for the budget |
| `AgentRuns.RecordingExactly` | server/agent_runs.py:199-214 | Recording adds the earlier calls, replaces the phase counts, and exhausts the budget exactly when the maximum is reached |
| `AgentRuns.AgentRunStore.ReserveBudget` | server/agent_runs.py:240-251 | The owner's row is saved on success and on denial |
| `AgentRuns.AgentRunStore.CountCall` | server/agent_runs.py:161-171 | As above, with a reservation for tool calls only |
| `AgentRuns.AgentRunStore.AddUsage` | server/agent_runs.py:173-197 | As above, saving the row and then the reloaded owner |
| `AgentRuns.AgentRunStore.CreateDelegation` | server/agent_runs.py:114-135 | As above; a known id is returned and the delegation limit is checked first |
| `AgentRuns.AgentRunStore.RecordPreOrchestrationCalls` | server/agent_runs.py:199-214 | As above; the phase counts are replaced and the budget may be exhausted |
| `Bm25.Bm25Index.Search` | server/rag/retrieval.py:50-63 | Search through the postings, in any order of the terms, returns exactly what scoring every document directly from its own counts returns |
| `Bm25.WeightAtAverage` | server/rag/retrieval.py:54-61 | In a document of average length one occurrence weighs the rarity of its term, and no number of them two and a half times that |
| `Bm25.WeightEquation` | server/rag/retrieval.py:54-61 | The weight is the solution of the saturation equation with k1 = 1.5 and b = 0.75 |
| `Bm25.MoreOftenGainsMore` | server/rag/retrieval.py:54-61 | Of two documents of one length, a term contributes more to the one that contains it more often |
| `Bm25.ShorterGainsMore` | server/rag/retrieval.py:54-61 | Of two documents that contain it equally often, more to the shorter one |
| `Bm25.RarerContributesMore` | server/rag/retrieval.py:54-61 | Of two terms that a document contains equally often, the rarer one contributes more |
| `Bm25.IdfOdds` | server/rag/retrieval.py:54-56 | The rarity of a term is the logarithm of one plus the odds of not containing it, with half a document added on both sides |
| `Bm25.HitsAreBest` | server/rag/retrieval.py:62-63 | The hits are ranked by score and position, and every document left out ranks after all of them while no place is free |
| `Bm25.ScoreAnyOrder` | server/rag/retrieval.py:54-61 | A score does not depend on the order of the query terms |
| `Bm25.BuildPostings` | server/rag/retrieval.py:39-48 | The build loop yields, for every term, its documents in order with their frequencies, and the document lengths |
| `Bm25.PostingsSound` | server/rag/retrieval.py:43-47 | Every posting carries the document's own count, and there are as many as documents that contain the term |
| `Bm25.PostingsComplete` | server/rag/retrieval.py:43-47 | Every document that contains a term has its posting |
| `Ranking.RankingUnique` | server/rag/retrieval.py:62-62 | A ranking by descending score and position is determined by the scores |
| `Ranking.SortedRanked` | server/rag/retrieval.py:62-62 | Sorting distinct positions yields that ranking |
| `Fusion.ReciprocalRankFusion` | server/rag/retrieval.py:66-79 | The loops return the best k of the fused ranking by summed reciprocal first ranks |
| `Fusion.FusedMember` | server/rag/retrieval.py:66-79 | Exactly the documents found by some ranking appear |
| `Fusion.FusedDistinct` | server/rag/retrieval.py:66-79 | No document appears twice |
| `Fusion.FusionRespectsDominance` | server/rag/retrieval.py:66-79 | A document never comes after one it beats in every ranking |
| `Fusion.BothBeforeOne` | server/rag/retrieval.py:142-149 | In two rankings whose lengths, each less one, have a product below 3721, every document found by both precedes every document found by one |
| `Fusion.LongPairsFail` | server/rag/retrieval.py:66-79 | In longer rankings that share only their last document, both it and the first document of the first ranking are returned, and the one found by both comes later |
| `Fusion.BothFirstExactly` | server/rag/retrieval.py:142-149 | For any two lengths: all pairs of rankings of these lengths put the documents found by both first exactly when that product is below 3721 |
| `Fusion.SixtyOneAtMost` | server/rag/retrieval.py:142-149 | All pairs of rankings up to a common limit do exactly when the limit is at most 61 |
| `Coverage.RoundRobin` | server/rag/workspace_retrieval.py:122-130 | The merge lists every hit once, by best rank and then by ranking |
| `Coverage.MergedUnique` | server/rag/workspace_retrieval.py:122-130 | That description determines the merge |
| `Coverage.BestHitsFirst` | server/rag/workspace_retrieval.py:121-130 | The best hit of each ranking is among the first places, one for each ranking |
| `Coverage.SelectCoverageHits` | server/rag/workspace_retrieval.py:35-52 | Without targets the first k; otherwise every target's first hit and, of the others, the best, until max(k, covered targets) hits |
| `Coverage.ChosenUnique` | server/rag/workspace_retrieval.py:35-52 | The choice is determined by that description |
| `Coverage.SelectionCovers` | server/rag/workspace_retrieval.py:121-139 | After any permuting rerank the selection is duplicate-free, has length min(hits, max(k, covered)), and holds the best hit of every target that was found |
| `Coverage.Invoke` | server/rag/workspace_retrieval.py:121-143 | Merge, rerank with its fallback, and selection composed; it raises exactly when a reranker fails without fallback |
| `Coverage.OutcomeCovers` | server/rag/workspace_retrieval.py:121-139 | What a query returns, from the rankings alone: each hit once and in the order of a successful rerank or else of the merge, as many as the smaller of all hits and max(k, covered targets), the first hit of every target that any ranking holds, and of the others the best |
| `Metrics.RelevanceGains` | evaluation/retrieval_eval/metrics.py:10-24 | The loop gives one to the first occurrence of each gold page within the cutoff and zero otherwise |
| `Metrics.GainsCountGold` | evaluation/retrieval_eval/metrics.py:16-24 | The gains sum to the number of retrieved gold pages |
| `Metrics.Rearrangement` | evaluation/retrieval_eval/metrics.py:44-52 | A total gain is worth at most the ideal of that total, and equal exactly when it comes first |
| `Metrics.NdcgRange` | evaluation/retrieval_eval/metrics.py:44-59 | Normalized gain lies in [0,1] and is one exactly when the first min(gold, cutoff) results are distinct gold pages |
| `Metrics.NdcgExactly` | evaluation/retrieval_eval/metrics.py:44-59 | Normalized gain is the discounted gain over the ideal of min(gold, cutoff), which is positive |
| `Metrics.DcgStep` | evaluation/retrieval_eval/metrics.py:44-49 | One more result at rank r adds one over log2(r + 1) exactly if it is a gold page not seen before |
| `Metrics.RecallAndHits` | evaluation/retrieval_eval/metrics.py:38-43 | Recall is the share of gold pages within the cutoff, and a hit within one, three and five results is one exactly if a gold page is among them |
| `Metrics.ReciprocalRankExactly` | evaluation/retrieval_eval/metrics.py:38-61 | The reciprocal rank is one over the rank of the first gold page within the cutoff, and zero without one |
| `Metrics.PositiveTogether` | evaluation/retrieval_eval/metrics.py:38-61 | Recall, reciprocal rank and normalized gain are positive together, exactly when a gold page was retrieved; recall and reciprocal rank lie in [0,1] |
| `Metrics.FirstHit` | evaluation/retrieval_eval/metrics.py:39-58 | Reciprocal rank one means a hit at the first place, and hits grow with the cutoff |
| `RefreshTokens.OneLiveToken` | server/auth/service.py:91-97 | In every reachable state a family has at most one unused and at most one unrevoked token |
| `RefreshTokens.FamilyIsOneChain` | server/auth/service.py:139-143 | A family is one chain: each member but the newest is replaced by the next, back to the first, and no member is off the chain |
| `RefreshTokens.RunKeepsFamilies` | server/auth/service.py:99-172 | The chain invariant holds over every run of logins, refreshes, logouts and password changes |
| `RefreshTokens.ReplayKillsFamily` | server/auth/service.py:136-138 | Once a used token is presented again, no token of its family ever yields a new pair |
| `RefreshTokens.YieldsOnce` | server/auth/service.py:139-143 | A token yields at most one new pair |
| `RefreshTokens.EarlierTokensAreDead` | server/auth/service.py:155-172 | After logging out everywhere or changing the password, no earlier token of the user ever yields a new pair |
| `RefreshTokens.LogoutEndsExactly` | server/auth/service.py:147-153 | Logging out ends the family exactly when its newest token is presented or it had ended before |
| `RefreshTokens.RotatedLogoutKeepsSession` | server/auth/service.py:129-153 | After a login, a refresh and a logout with the first token, the second still yields a pair |
| `RefreshTokens.AuthService.LogIn` | server/auth/service.py:99-127 | A token is issued only for an active, unlocked account whose password did not change since it was verified; otherwise failures are counted and lock the account |
| `RefreshTokens.LoginIssuesExactly` | server/auth/service.py:99-127 | A token is issued exactly for a password verified against the current hash of an active, unlocked account, and begins a family; otherwise no token changes, and an active, unlocked account counts one failure and is locked at the maximum |
| `RefreshTokens.LockHolds` | server/auth/service.py:99-127 | A locked account yields no token to any login before its time, whatever happens meanwhile |
| `RefreshTokens.FailuresLock` | server/auth/service.py:115-123 | An active account is locked by exactly as many failed logins in a row as the maximum |
| `RefreshTokens.RefreshIssuesExactly` | server/auth/service.py:129-145 | A refresh issues exactly for an unused, unrevoked, unexpired token of an active account, and rotates it; a used one revokes its family; anything else changes nothing |
| `RefreshTokens.PasswordChangesExactly` | server/auth/service.py:161-172 | A change succeeds exactly for a verified password that no other change overtook, and revokes exactly the user's tokens |
| `RefreshTokens.AuthService.Refresh` | server/auth/service.py:129-145 | Rotation, replay and refusal, row by row |
| `RefreshTokens.AuthService.LogOut` | server/auth/service.py:147-153 | At most the presented token's row changes, and only towards revoked; an unknown token changes nothing |
| `RefreshTokens.AuthService.LogOutAll` | server/auth/service.py:155-159 | Exactly the rows of the user become revoked; nothing else of any row changes |
| `RefreshTokens.AuthService.ChangePassword` | server/auth/service.py:161-172 | A verified change that no other change overtook sets the hash and revokes every token of the user |
| `MemoryStore.SupersessionTerminates` | server/memory.py:127-170 | On every run of creations, updates and retrievals, their transactions interleaved in any way, every record leads to an active one all along exactly when no update makes its last write while the record it saved already leads back to the one it replaces, and no retrieval writes back a record superseded since it was read |
| `MemoryStore.InterleavingKeepsUnambiguous` | server/memory.py:127-170 | On every such run no two records with active status columns in one place share a hash or a key |
| `MemoryStore.UninterruptedRunsEnd` | server/memory.py:161-170 | On every run of whole operations both hold without a condition |
| `MemoryStore.UninterruptedUpdate` | server/memory.py:161-170 | Its two transactions in a row are the update as a whole, and its last write does not lead back |
| `MemoryStore.LinkExactly` | server/memory.py:165-169 | The last write of an update keeps all chains finite exactly when the saved record does not lead back to the old one |
| `MemoryStore.InterleavedUpdatesCycle` | server/memory.py:161-170 | From an empty store, two creations and two interleaved updates leave two records that supersede one another and no active one |
| `MemoryStore.RetrievalRevives` | server/memory.py:177-211 | From an empty store, a creation, an update and a retrieval that read the old record before leave that record active in its payload, superseded in its column, and leading nowhere |
| `MemoryStore.MemoryTable.Create` | server/memory.py:127-159 | The scan with its early returns, the insertion and the loop over the conflicts equal the function on rows |
| `MemoryStore.MemoryTable.Update` | server/memory.py:161-170 | An uninterrupted update: create, then supersede the old record by what was saved |
| `MemoryStore.ScanFacts` | server/memory.py:143-154 | A duplicate found is an active row of the same place and not the replaced one; otherwise every row left active differs in hash and key |
| `MemoryStore.ScanExactly` | server/memory.py:143-154 | The scan finds the first active row of the place that says the same, or else exactly the rows that give way: the one replaced, and those with the same key |
| `MemoryStore.CreatingExactly` | server/memory.py:127-159 | A creation raises exactly for an unacceptable text and stores nothing weak; it returns a duplicate and changes nothing, or adds the record and supersedes exactly the rows that give way by it |
| `MemoryStore.UpdatingExactly` | server/memory.py:161-170 | An update raises exactly for an unknown record, another's record or an unacceptable text; otherwise it creates the new text with everything else of the old record and supersedes that by what was saved |

## Left out

- WorkerTheorems.AttemptsBounded: stated with the overlap term, because without it the bound is false (see `RetryBound`).
- Protocol: three checks of the source are dropped where the theorems do not need them, so the model has more runs than the code: whether the task was seen running before it is parked, whether it was seen waiting before a decision, and authorization.
- Phase4.Phase4Services.Decide: in inline mode the source runs the task at server/phase4.py:239; that run is not part of this method but a process of `Protocol`.
- TaskQueue.TaskTables.RecoverStalled: one undisturbed sweep; interleaved recoveries are steps of `WorkerRuntime`.
- TaskQueue.TaskTables.WaitForApproval: the write to the step row, which no modelled operation reads.
- TaskQueue: the inline and SQLite execution mode, step rows and their attempts, startup recovery, event payloads.
- ToolActions: receipts, durations, summaries, descriptors and the secret redaction of stored values; the transport of a provider call.
- ResearchGraph: the text of prompts, answers, citations and traces; interrupts raised by tools; the memory, orchestration and tool nodes of the larger graphs. The loop of the query refiner runs over a plan of one step and is modelled as that one step.
- ContextHarness.FitMessages: failure only above the cap is proved for at least half a character per token; the setting in use is two. Between the bare and the capped estimate the outcome is that of `ContextHarness.Fitting`, which depends on the white space at each cut; no shorter condition is stated. Contents that are not strings are not modelled.
- ContextPreparation.Harness.Prepare: between the two estimates whether it raises depends on the white space at each cut; the wording of an excerpt is a parameter.
- AgentRuns: starting, progress, completion and caching of delegations; the budget write outside a transaction at server/agent/efficient_orchestration.py:124-132.
- BudgetClock.ElapsedIsActiveTime: times are whole seconds, and the completion time that freezes the elapsed time of a finished run (server/agent/efficiency.py:52) is not modelled.
- BudgetManager: utilization ratios and cost decisions.
- Bm25: the tokenizer; documents are token sequences.
- Fusion: score metadata, and the dense search and the cross encoder behind PDFRetriever.
- Coverage: the concurrent per-document searches with their admission and time limits; the choice of comparison targets from the query text.
- Metrics: averages over cases.
- RefreshTokens: access tokens, the audit log, password hashing (whether a password was verified is a parameter).
- MemoryStore: deletion; which records a retrieval returns, their scores and their access counts (what it writes back is modelled).
