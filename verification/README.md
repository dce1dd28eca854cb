# Worker plane, gates and stores of the agent platform: a verified model

The platform turns security events into plans, plans into queued jobs for personas, and
jobs into agent runs. This project models the run-time protocol behind that and proves
properties of it for all inputs, all runs and all interleavings.

- **Scheduling** (`Scheduler`, `Drain`, `ChainOrder`, `WorkerPlane`). A routing decision becomes a batch of
  jobs, sequential ones chained by persona. A worker takes the head of a FIFO queue, puts a job whose
  predecessor is not marked back at the tail, and runs it otherwise; every way a run can end marks the persona.
  The pure protocol allows any number of workers; the orchestrator objects are proved to refine its
  single worker under arbitrary faults of every call of a run.
- **Stores and approval** (`JobStores`, `HitlResume`, `JobBudget`). Two job stores with different stale data,
  proved substitutable for what the human-approval protocol observes.
- **Gates** (`ToolGates`, `RateLimiter`, `CircuitBreaker`, `AgentBus`). Budget, sliding window, approval,
  reasoning-before-action and one-action-per-turn around a tool call; the breaker and the sanitiser of the bus.
- **Runs** (`RunStep`, `EventRouter`, `ContextTrim`, `PlanDelta`, `SpawnChain`, `QualityScores`). The trace-critic
  rerun loop, the routing fold, history trimming, plan merging, spawn chains and quality arithmetic.

Objects that the platform updates in place are classes, each proved against a specification on values;
the theorems are about those specifications, over whole runs. Agent runs, the critic, normalisation,
pattern substitution, hashing, signing and summarising are arbitrary functions or oracle parameters. The clock is a
parameter. Random suffixes of job ids are parameters. `dafny verify dfyconfig.toml` checks everything.

What the proofs brought to light, beyond the properties one would hope for:

- Chained jobs keep plan order under overlapping workers if and only if all names but the last are nonempty and
  distinct, because a mark made by one job unblocks every job that depends on the same name
  (`ChainOrder.OrderSafeIffDistinctNames`). For the same reason a revision job on the same investigation keeps the
  order if and only if its persona is no name the chain waits for (`ChainOrder.OrderSafeAmidIff`). A single worker
  keeps the order whatever the names and the other traffic.
- The tool-call budget is checked before a call and counted after it, so overlapping `reasoning_step` calls of one
  turn can return more bodies than the budget allows, by up to the number of overlapping calls less one, and that
  bound is attained (`ToolGates.OverlapOvershoots`). Action tools never exceed it (`ToolGates.ActionsNeverOvershoot`).
- Asking whether a breaker is open may reset it. With a threshold above one its answer is therefore not a
  function of the failures recorded (`Breakers.QueriesMatter`).
- The two job stores disagree on what they show exactly when a pending upsert writes an empty id over a nonempty
  one or an empty tenant (`JobStores.PendingRelatedIff`). On data they no longer show they may differ at any time
  (`JobStores.StalePendingDiffers`).
- The arguments of an edit decision are logged but not run: the agent is resumed with the decision and the approval
  id alone, so log and execution agree if and only if the decision does not really edit
  (`HitlResume.LoggedIsRunIff`).
- A pause registered while the agent of its job is being resumed survives the resume if and only if that resume
  raises and nothing else closes it (`HitlResume.PauseDuringResumeIff`). One that a
  run registers for its own job never survives the run (`WorkerPlane.RunWorkerJob.Execute`).
- The job of a worker session is recovered only if the persona has no colon (`HitlResume.SessionRoundTrip`).
- Applying a plan delta a second time changes the todos exactly when, for some new todo, it names a persona only
  before the item that gives the todo content (`PlanDelta.DeltaTwiceIff`). Repeated ids among the todos are merged away
  (`PlanDelta.PrefixIffDistinct`).
- Rate-limiter keys join session and tool by a colon. Sessions contain colons, yet keys stay apart as long as no tool
  name contains one (`ToolGates.KeysApart`); otherwise different sessions can share one (`ToolGates.KeysCollide`).

## Model

| member | source | states |
|---|---|---|
| Scheduler.Conservation | interfaces/worker/orchestrator.py:103-162 | On every run of submissions, takes and endings, by any number of workers, queued, held and ended jobs together are exactly the jobs submitted: a re-enqueue neither loses, doubles nor alters a job |
| Scheduler.EachJobEndsOnce | interfaces/worker/orchestrator.py:157-207 | Once nothing is queued or held, each submitted job has ended exactly as often as it was submitted |
| Scheduler.ProcessNextIsTakeThenFinish | interfaces/worker/orchestrator.py:157-162 | One call of the single worker is a take of the general protocol, followed by the end of the job if one was taken |
| Scheduler.RunMarksOnce | cys_core/infrastructure/memory/stores.py:67-75 | In every reachable state each completed persona of an investigation is listed once |
| Scheduler.MarkKeepsOnce | cys_core/application/use_cases/run_worker_job.py:81-86 | A mark records the persona under the key the gate reads, and never a second time |
| Scheduler.BatchSchedulable | interfaces/worker/orchestrator.py:164-193 | Every routing decision yields jobs that can be executed in their own order, whatever the persona list: each dependency names an earlier job of the batch |
| Scheduler.LoneJobSchedulable | interfaces/control_plane/critic_service.py:30-43 | So is a job that waits for no one, such as a revision the critic asks for |
| Scheduler.JobsForLinks | interfaces/worker/orchestrator.py:175-192 | A sequential batch is a chain: one key, the planned personas, each job depending on the persona just before it |
| Scheduler.JobsCarryRequest | interfaces/worker/orchestrator.py:175-192 | Each job of a batch carries its persona and the event, playbook, payload, tenant and investigation of the request, and waits for the persona just before it only in a sequential one |
| Scheduler.UniqueJobIds | interfaces/worker/orchestrator.py:178 | Random suffixes of one length that are all different give job ids that are all different, whatever dashes personas and event ids contain |
| Scheduler.SchedulableRemove | interfaces/worker/orchestrator.py:104-116 | Running a job early leaves the rest of an executable order executable |
| Scheduler.TakeLive | interfaces/worker/orchestrator.py:103-116 | Taking the head, ready or not, keeps the queue executable when held jobs are counted as done |
| Scheduler.FinishLive | cys_core/application/use_cases/run_worker_job.py:81-86 | Ending a held job, however it ends, keeps the queue executable |
| Scheduler.RunLive | interfaces/worker/orchestrator.py:103-207 | The two previous facts and submission of jobs that are executable in their own order, over every run |
| Scheduler.NoDeadlock | interfaces/worker/orchestrator.py:103-116 | In every reachable state in which no worker holds a job, a nonempty queue has a ready job, whatever was submitted, as long as each submission is executable in its own order |
| Drain.TriangleClosed | interfaces/worker/orchestrator.py:157-162 | The drain bound in closed form: n(n+1)/2 |
| Drain.Rotate | interfaces/worker/orchestrator.py:111-112 | Heads that are not ready go to the tail in order, and nothing else changes |
| Drain.RoundTo | interfaces/worker/orchestrator.py:103-116 | Reaching and executing the first ready job, at distance d, takes exactly d+1 calls; the exact state afterwards |
| Drain.DrainBound | interfaces/worker/orchestrator.py:157-162 | A queue of n jobs that has some executable order is emptied by n(n+1)/2 calls, and each of its jobs ends once |
| Drain.DrainsIffDrainable | interfaces/worker/orchestrator.py:157-162 | A queue can be emptied by repeated calls if and only if it has an executable order |
| Drain.EveryRunDrains | interfaces/worker/orchestrator.py:157-207 | From every reachable state of every interleaving with no job held, the bound empties the queue and every job ever submitted, batch, revision or spawned, has ended exactly once |
| Drain.DrainAnyInterleaving | interfaces/worker/orchestrator.py:164-207 | Any number of submissions, their jobs in any order whatever in the queue, on any marks already made: the bound empties the queue |
| Drain.FifoDrain | cys_core/infrastructure/queue.py:18-26 | A queue in an executable order drains in one pass, in that order, without a re-enqueue |
| Drain.DrainBoundAttained | interfaces/worker/orchestrator.py:111-112 | The bound is tight: a chain queued back to front still has jobs after n(n+1)/2 - 1 calls |
| ChainOrder.ChainInPlanOrder | interfaces/worker/orchestrator.py:104-116 | For a chain whose non-final names are nonempty and distinct, alone on its key: in every reachable state of any number of workers and any other traffic, exactly a plan prefix has ended, the completed personas are those of that prefix, and at most the very next job is held |
| ChainOrder.CompletedIsPlanPrefix | cys_core/infrastructure/memory/stores.py:67-75 | With all names distinct the completed personas are, as a sequence, a prefix of the plan |
| ChainOrder.OnlyNextReady | interfaces/worker/orchestrator.py:104-110 | A queued job of the chain is ready only if it is the next one |
| ChainOrder.BreakingRun | interfaces/worker/orchestrator.py:104-116 | Otherwise a run of two workers ends a job before its predecessor |
| ChainOrder.OrderSafeIffDistinctNames | interfaces/worker/orchestrator.py:104-116 | Under overlapping workers plan order is guaranteed if and only if all names but the last are nonempty and distinct |
| ChainOrder.ChainAmidTraffic | interfaces/worker/orchestrator.py:104-116 | With other jobs on the same key, as long as none has a name the chain waits for: the ended jobs of the chain are a plan prefix, at most the next is held, and an awaited name is marked exactly when its job has ended |
| ChainOrder.BreakingExtra | interfaces/control_plane/critic_service.py:30-43 | Otherwise one such job, whichever awaited name it has, lets a job of the chain end before its predecessor |
| ChainOrder.OrderSafeAmidIff | interfaces/worker/orchestrator.py:104-116 | Another job of the key that waits for no one keeps plan order, however often it is submitted, if and only if its persona is no name the chain waits for |
| ChainOrder.OneWorkerKeepsOrder | interfaces/worker/orchestrator.py:157-162 | One worker keeps a chain in plan order whatever its names and whatever else is submitted, on its key or another |
| ChainOrder.OneWorkerInPlanOrder | interfaces/worker/orchestrator.py:157-193 | The same from the submission of the chain |
| ChainOrder.ProcessOwn | interfaces/worker/orchestrator.py:104-116 | Whenever one worker meets a job of the chain, it is the next one and its predecessor has been marked |
| WorkerPlane.InMemoryJobQueue.Enqueue | cys_core/infrastructure/queue.py:18-21 | Appends at the tail |
| WorkerPlane.InMemoryJobQueue.Dequeue | cys_core/infrastructure/queue.py:23-26 | Pops the head, or reports an empty queue and changes nothing |
| WorkerPlane.LocalSandboxConnector.Create | cys_core/infrastructure/sandbox.py:17-24 | The run has a sandbox afterwards; other runs are untouched |
| WorkerPlane.LocalSandboxConnector.Destroy | cys_core/infrastructure/sandbox.py:26-27 | The run has no sandbox afterwards, whether or not it had one |
| WorkerPlane.InMemoryInvestigationStateStore.Upsert | cys_core/infrastructure/memory/stores.py:52-54 | Replaces the state; marks are unchanged when the written state kept its completed personas |
| WorkerPlane.InMemoryInvestigationStateStore.MarkPersonaDone | cys_core/infrastructure/memory/stores.py:67-75 | Adds the persona at the end unless it is there; everything else is unchanged |
| WorkerPlane.InMemoryInvestigationStateStore.AppendFinding | cys_core/infrastructure/memory/stores.py:56-65 | Adds the finding and moves an open investigation to in-progress |
| WorkerPlane.RunWorkerJob.MarkPersonaTerminal | cys_core/application/use_cases/run_worker_job.py:81-86 | The store method is the mark of the scheduler protocol, on the key the gate reads |
| WorkerPlane.RunWorkerJob.Attempt | cys_core/application/use_cases/run_worker_job.py:142-266 | The try block under arbitrary faults before or after each call takes effect: it returns normally exactly when no call fails and the result is a dict, and otherwise raises what the first failing call raises; the finding is filed exactly when the append is reached, applies and takes effect |
| WorkerPlane.RunWorkerJob.Handle | cys_core/application/use_cases/run_worker_job.py:270-305 | The three handlers: the record fails, the persona is marked, the exception decides what is counted |
| WorkerPlane.RunWorkerJob.Execute | cys_core/application/use_cases/run_worker_job.py:133-307 | Whatever is raised: the error is that of the first failing call, the sandbox of the run is gone, the persona is marked once under the correlation id (or the event id), a persisted record is COMPLETED if and only if the result reports success and FAILED otherwise, and exactly one finding with persona, id and body of the job is added under the parent key, or else the correlation id, or else the event id, when the append took effect; no other investigation gets any |
| WorkerPlane.WorkerOrchestrator.RunReady | interfaces/worker/orchestrator.py:118-155 | A job that may run: its budget is what the job sets, else the default of the persona, with nothing used; then executed; budget entry and profile of its session cleared; marks, finding and record as execution promises |
| WorkerPlane.MarkAgain | cys_core/application/use_cases/run_worker_job.py:81-86 | Marking in the try block and again in a handler is one mark |
| WorkerPlane.MarkWritten | cys_core/application/use_cases/run_worker_job.py:81-86 | What the mark of the protocol is on the stored states: the persona under tenant and correlation id, or event id, unless it is there; all other marks unchanged |
| WorkerPlane.RaisedIff | cys_core/application/use_cases/run_worker_job.py:142-266 | When a call of the try block fails: schema validation only for error-free dicts with a schema, and not for a violation in the dev stage; memory and finding writes only for dicts |
| WorkerPlane.RunWorkerJob.Start | cys_core/application/use_cases/run_worker_job.py:142-185 | The calls up to the agent run stop at the first that fails |
| WorkerPlane.RunWorkerJob.Conclude | cys_core/application/use_cases/run_worker_job.py:192-271 | The calls after it stop at the first that fails; the finding is filed exactly once if the append took effect |
| WorkerPlane.OneMoreFiled | cys_core/application/use_cases/run_worker_job.py:238-247 | A run that files its finding extends the account of all findings by that job |
| WorkerPlane.BatchFilers | cys_core/application/use_cases/run_worker_job.py:88-92 | The jobs of a routing decision, in whatever order they ended, all file in one investigation: that of the request, or its parent key |
| WorkerPlane.BatchFiled | cys_core/application/use_cases/run_worker_job.py:238-247 | When exactly the jobs of a batch have ended with their findings filed, that investigation has got one finding of each and no other has got any |
| WorkerPlane.PersistedOthers | interfaces/worker/orchestrator.py:195-204 | Persisting a batch neither changes nor removes records of other jobs |
| WorkerPlane.PersistedAll | interfaces/worker/orchestrator.py:195-204 | With distinct ids every job of the batch is on record as pending under its own ids |
| WorkerPlane.BatchOnRecord | interfaces/worker/orchestrator.py:195-204 | With unique suffixes every job of a routing decision is on record as pending under the ids of the request |
| WorkerPlane.WorkerOrchestrator.RunJob | interfaces/worker/orchestrator.py:103-155 | A job whose awaited persona is not among the completed ones of its own investigation goes to the tail unaltered and no store changes; any other executes: exact mark and finding, terminal record, sandbox and budget entry gone |
| WorkerPlane.WorkerOrchestrator.ProcessNext | interfaces/worker/orchestrator.py:157-162 | Refinement: whatever the run does, one call is one step of the protocol's single worker, and the findings grow by that of the job that ended |
| WorkerPlane.WorkerOrchestrator.JobsForRouting | interfaces/worker/orchestrator.py:164-193 | The loop with its running previous persona builds exactly the chain (or the independent jobs) |
| WorkerPlane.WorkerOrchestrator.PersistAndEnqueueJobs | interfaces/worker/orchestrator.py:195-207 | Submits the jobs in order to the protocol and writes one pending record each |
| WorkerPlane.WorkerOrchestrator.EnqueueFromRouting | interfaces/worker/orchestrator.py:223-243 | A routing decision submits one whole batch; with unique suffixes every persona has its own pending record under the ids of the request |
| WorkerPlane.RunWorker | interfaces/cli/main.py:63-68 | The worker command: given n(n+1)/2 calls for n queued jobs it ends every one of them exactly once, whatever each run does; when every run files its finding, each ended job has filed exactly one, in order, under its own key |
| JobStores.InMemoryJobStore.UpsertPending | cys_core/infrastructure/job_store/in_memory.py:15-34 | Replaces the record: pending, without session, preview or pending action, under the given ids even when they are empty |
| JobStores.InMemoryJobStore.UpsertRunning | cys_core/infrastructure/job_store/in_memory.py:36-57 | Replaces the record: running, without preview or pending action; empty ids fall back to those on record |
| JobStores.InMemoryJobStore.PauseForHitl | cys_core/infrastructure/job_store/in_memory.py:59-73 | Awaiting approval, with preview and pending action; the ids on record survive the pause |
| JobStores.InMemoryJobStore.MarkRunning | cys_core/infrastructure/job_store/in_memory.py:78-84 | Running and without pending action, or unchanged when there is no record |
| JobStores.PostgresJobStore.Upsert | cys_core/infrastructure/job_store/postgres.py:59-119 | The read-modify-write of one row: keeps the stored preview when none is given, clears the pending action when none is given |
| JobStores.PostgresJobStore.UpsertPending | cys_core/infrastructure/job_store/postgres.py:121-138 | Pending, without session; keeps the stored preview and every id not given |
| JobStores.PostgresJobStore.PauseForHitl | cys_core/infrastructure/job_store/postgres.py:160-172 | Awaiting approval, with preview and pending action, under the ids read back |
| JobStores.PostgresJobStore.Mark | cys_core/infrastructure/job_store/postgres.py:188-232 | A known job gets the status, keeps its preview and loses its pending action; an unknown one leaves the table alone |
| JobStores.StepRelated | cys_core/infrastructure/job_store/postgres.py:59-232 | Every operation keeps the two stores related, but for a pending upsert that would erase an id |
| JobStores.PendingRelatedIff | cys_core/infrastructure/job_store/in_memory.py:15-34 | For a pending upsert the stores stay related if and only if no nonempty id on record is overwritten by an empty one and the tenant is nonempty |
| JobStores.RunRelated | cys_core/infrastructure/job_store/postgres.py:59-232 | Over any run from empty stores whose pending upserts carry nonempty ids |
| JobStores.PendingListedIff | cys_core/infrastructure/job_store/in_memory.py:96-101 | A pending action is listed if and only if it is that of a record awaiting approval |
| JobStores.ListedIff | cys_core/infrastructure/job_store/in_memory.py:103-117 | The listing of an investigation shows exactly the records of that tenant and correlation id, field by field |
| JobStores.RelatedObservations | cys_core/infrastructure/job_store/in_memory.py:96-117 | Related stores list the same pending approvals and the same investigation summaries |
| JobStores.StoresSubstitutable | cys_core/infrastructure/job_store/postgres.py:234-271 | So the two stores are substitutable for what approval and listing observe, on every run |
| JobStores.StalePendingDiffers | cys_core/infrastructure/job_store/in_memory.py:86-89 | They do differ on data no longer shown: after a terminal mark only one still holds the pending action |
| JobStores.InMemoryJobStore.MarkCompleted | cys_core/infrastructure/job_store/in_memory.py:86-89 | Changes the status of a known job and nothing else |
| JobStores.InMemoryJobStore.MarkFailed | cys_core/infrastructure/job_store/in_memory.py:91-94 | Changes the status of a known job and nothing else |
| JobStores.PostgresJobStore.UpsertRunning | cys_core/infrastructure/job_store/postgres.py:140-158 | Running under the given session; keeps the stored preview and every id not given |
| WorkerPlane.RunWorkerJob.CreateSandbox | cys_core/application/use_cases/run_worker_job.py:143-144 | Raises as the oracle says; touches only the sandbox of the run |
| WorkerPlane.RunWorkerJob.UpsertRunning | cys_core/application/use_cases/run_worker_job.py:146-153 | Raises as the oracle says; touches only the record of the job |
| WorkerPlane.RunWorkerJob.RunAgent | cys_core/application/use_cases/run_worker_job.py:174-185 | Raises as the oracle says; may spend the budget of its own session in any way; each risky call registers its pause in the session of the run |
| WorkerPlane.RunWorkerJob.RegisterPauses | cys_core/middleware/hitl_pause.py:57-71 | The pauses of the run are registered one by one |
| WorkerPlane.PausesOwnOnly | cys_core/middleware/hitl_pause.py:27-54 | They touch only the record that the session of the run names |
| WorkerPlane.RunWorkerJob.AppendFinding | cys_core/application/use_cases/run_worker_job.py:238-247 | Files the finding under the memory key if the result is an error-free dict and the append takes effect, and touches no mark |
| WorkerPlane.RunWorkerJob.MarkPersona | cys_core/application/use_cases/run_worker_job.py:249 | Marks, or raises having marked or not |
| WorkerPlane.RunWorkerJob.MarkCompleted | cys_core/application/use_cases/run_worker_job.py:251-252 | Completes the record, or raises having done so or not |
| HitlResume.SessionRoundTrip | cys_core/middleware/hitl_pause.py:27-31 | The job of a worker session is recovered if and only if the persona has no colon |
| HitlResume.PausedUnderJob | cys_core/middleware/hitl_pause.py:27-43 | A pause in a worker session is filed under its job, or under the session when the job id is empty |
| HitlResume.PausedUnderSession | cys_core/middleware/hitl_pause.py:27-43 | A pause in any session not of that form is filed under the session itself |
| HitlResume.PreviewNamesJob | cys_core/middleware/hitl_pause.py:34-54 | A preview built in the session of a job names that job and hashes its own arguments |
| HitlResume.RegisterHitlPause | cys_core/middleware/hitl_pause.py:57-82 | The pause is on record and listed as a pending approval |
| HitlResume.PauseWritten | cys_core/middleware/hitl_pause.py:34-71 | The pause of a risky call, field by field: the pending action and the preview agree on job, session, persona, tool, arguments, risk and approval id |
| HitlResume.ApprovedIff | cys_core/middleware/hitl_pause.py:85-95 | Which answers to an interrupt let the tool run |
| HitlResume.EachPauseConsumedOnce | cys_core/application/use_cases/resume_hitl_job.py:39-86 | Over any interleaving of store operations, requests and ends of resumes, the decisions that take effect on a job plus the open pause never exceed the pauses there were |
| HitlResume.DecidedUntilNextPause | cys_core/application/use_cases/resume_hitl_job.py:44-45 | After a decision that takes effect every request is refused until the job pauses again |
| HitlResume.AcceptedRunsPausedArgs | cys_core/middleware/security_middleware.py:65-76 | While the pause of a call is open a request is accepted if and only if it is no rejection and names no other approval; the tool body then receives the arguments the call was made with |
| HitlResume.LoggedIsRunIff | cys_core/application/use_cases/resume_hitl_job.py:65-84 | The arguments logged with an accepted decision are those that run if and only if it is not an edit that changes them |
| HitlResume.EditIsNotRun | cys_core/application/use_cases/resume_hitl_job.py:65-84 | An edit that changes the arguments is accepted and logged, and the paused arguments run |
| HitlResume.OpenIff | cys_core/infrastructure/job_store/in_memory.py:15-94 | On every run a pause is open if and only if nothing has closed it since it was last registered: no other write to the record of its job, no request that passes the checks, no returning resume of the job |
| HitlResume.StaysOpenIff | cys_core/application/use_cases/resume_hitl_job.py:39-86 | So an open pause whose approval id is not used again stays open exactly as long as nothing closes it |
| HitlResume.PauseDuringResumeIff | cys_core/application/use_cases/resume_hitl_job.py:81-86 | A pause registered while the agent of its job is being resumed is open afterwards if and only if that resume raised and nothing else closed it, during the resume or later |
| HitlResume.ResumedStoreIsRun | cys_core/application/use_cases/resume_hitl_job.py:81-86 | What the use case leaves in the store is the request, the writes during the resume and the end of the resume, as protocol steps |
| HitlResume.ApprovalNeverMismatches | cys_core/application/use_cases/resume_hitl_job.py:63-67 | When every pause went through registration, no approval ever fails the hash check |
| HitlResume.PausedJobIsApprovable | cys_core/middleware/hitl_pause.py:34-82 | End to end: a call paused in the session of a job is listed, can be approved and runs with its own arguments |
| HitlResume.SameVerdict | cys_core/application/use_cases/resume_hitl_job.py:39-67 | Related stores give every request the same verdict |
| HitlResume.ProtocolSubstitutable | cys_core/application/use_cases/resume_hitl_job.py:39-86 | The whole approval protocol runs the same over either store |
| HitlResume.ResumeHitlJob.Execute | cys_core/application/use_cases/resume_hitl_job.py:39-86 | Which of the five checks refuses, in order, if and only if; a refusal leaves store, approvals and resumptions alone, so the pause can still be decided; otherwise the exact new store, whatever is written to it while the agent resumes, the logged approval, and the resumption of the recorded persona and session with the decision and the approval id of the pending action, also when the request names none |
| ToolGates.TurnsAlwaysSafe | cys_core/middleware/sgr_one_tool_middleware.py:23-38 | On every run, however the tool calls of a turn overlap, the two session flags summarise the turn and the log of bodies is turn-safe |
| ToolGates.ActionsApart | cys_core/middleware/sgr_one_tool_middleware.py:31-38 | Between two action bodies lies the start of a model turn |
| ToolGates.ReasonedBeforeAction | cys_core/middleware/sgr_reasoning_middleware.py:67-85 | When reasoning is required, each action body follows a valid reasoning step of the same turn |
| ToolGates.RefusalKeepsSlot | cys_core/runtime/agent.py:194-197 | Because the reasoning gate is outside the one-tool gate, a call refused for missing reasoning does not use up the turn's slot |
| ToolGates.BudgetNeverExceeded | cys_core/middleware/security_middleware.py:78-129 | Counted calls never pass the maximum; bodies that returned exceed the counted calls by less than the largest number of calls in flight at once, so not at all when calls do not overlap |
| ToolGates.ActionsNeverOvershoot | cys_core/middleware/sgr_one_tool_middleware.py:23-38 | Action bodies that returned never exceed the counted calls, however calls overlap, because at most one action is in flight |
| ToolGates.OverlapOvershoots | cys_core/middleware/security_middleware.py:84-115 | The excess is real, for reasoning steps, and the bound tight: for every positive budget and width some run has width-1 more bodies returned than the budget allows |
| ToolGates.WholeIsThrough | cys_core/middleware/security_middleware.py:78-129 | A call that meets no other is two steps of the protocol, spelled out case by case |
| ToolGates.SgrSessionState.MarkReasoning | cys_core/middleware/sgr_session.py:18-21 | Sets the flag and nothing else of the turn |
| ToolGates.SgrSessionState.ResetTurn | cys_core/middleware/sgr_session.py:23-25 | Clears both flags |
| ToolGates.SgrOneToolMiddleware.WrapToolCall | cys_core/middleware/sgr_one_tool_middleware.py:23-38 | Second action of the turn refused; the slot is taken before the body runs, so also by a body that raises |
| ToolGates.SchemaGuidedReasoningMiddleware.WrapModelCall | cys_core/middleware/sgr_reasoning_middleware.py:36-48 | A model call starts a new turn |
| ToolGates.SchemaGuidedReasoningMiddleware.WrapToolCall | cys_core/middleware/sgr_reasoning_middleware.py:67-85 | Reasoning steps pass and are recorded when they returned and validate; actions need one when the policy says so |
| ToolGates.SecurityMiddleware.WrapToolCall | cys_core/middleware/security_middleware.py:78-129 | Exact reply, counter, session flags and exact protocol step: exhausted budget, then too many admitted calls of this session and tool in the window, then missing approval, then the inner gates; only the history of this session and tool grows |
| ToolGates.SecurityMiddleware.Admit | cys_core/middleware/security_middleware.py:84-99 | The three outer gates in order, and what each leaves in the limiter |
| ToolGates.KeysApart | cys_core/middleware/security_middleware.py:93 | Two calls share a limiter key if and only if they have the same session and tool, as long as tool names contain no colon |
| ToolGates.KeysCollide | cys_core/middleware/security_middleware.py:93 | With a colon in a tool name different sessions do share keys |
| ToolGates.SecurityMiddleware.OthersUntouched | cys_core/middleware/security_middleware.py:93 | So calls of other sessions or other tools leave the verdict on this session and tool as it was |
| ToolGates.SecurityMiddleware.Handle | cys_core/middleware/security_middleware.py:101-129 | The admitted call is counted exactly when the inner gates and body returned |
| ToolGates.SecurityMiddleware.constructor | cys_core/runtime/agent.py:169-197 | One session object shared by both inner gates, nested in this order |
| ToolGates.SecurityMiddleware.WrapModelCall | cys_core/middleware/sgr_reasoning_middleware.py:36-48 | A model call through the stack is the protocol's new turn |
| JobBudget.JobBudgetTracker.Configure | cys_core/domain/workers/job_budget.py:43-58 | Fresh counters and the profile of the session |
| JobBudget.JobBudgetTracker.CheckToolCall | cys_core/domain/workers/job_budget.py:73-79 | Refuses exactly an exhausted session; an unknown session is never exhausted |
| JobBudget.JobBudgetTracker.RecordToolCall | cys_core/domain/workers/job_budget.py:81-87 | Counts one call unless the session is exhausted |
| JobBudget.JobBudgetTracker.Clear | cys_core/domain/workers/job_budget.py:64-67 | Removes the session's entries and no other |
| RateLimiter.InMemoryRateLimiter.Allow | cys_core/security/rate_limit.py:22-30 | Refused if and only if the maximum is not positive or the maximum-th last of ALL calls ever admitted for the key is still in the window; an admitted call is added to the history of its key and to no other |
| RateLimiter.Answer | cys_core/security/rate_limit.py:22-30 | The pruned deque gives the answer of the full history and stays its unexpired end |
| RateLimiter.RefusedIff | cys_core/security/rate_limit.py:27-30 | The counting rule refuses exactly when the maximum-th last admitted call is still in the window |
| RateLimiter.BurstAdmitted | cys_core/security/rate_limit.py:22-30 | The bound is used to the full: of n calls of a fresh key at one instant exactly the first maximum many are admitted |
| RateLimiter.Prune | cys_core/security/rate_limit.py:24-26 | What is left after popping is what the window counts in the full history |
| RateLimiter.AdmitSpaced | cys_core/security/rate_limit.py:27-30 | Admission by the history-only rule keeps any max+1 consecutive admitted calls further apart than the window |
| RateLimiter.SpacedWindow | cys_core/security/rate_limit.py:22-30 | A history so spaced has at most the maximum in every closed interval of the window's length |
| RateLimiter.NoWindowOverfull | cys_core/security/rate_limit.py:22-30 | Over any run on a nondecreasing clock and any mix of keys, no window of any key holds more than the maximum |
| RateLimiter.InMemoryRateLimiter.WindowHolds | cys_core/security/rate_limit.py:22-30 | The same of the limiter object in every valid state |
| Breakers.AfterCounts | cys_core/domain/security/agent_bus.py:26-50 | What the two stored numbers mean in terms of the failure history, whatever queries were interleaved |
| Breakers.RecentFailuresBlock | cys_core/domain/security/agent_bus.py:33-46 | If the last threshold failures lie within the timeout, the agent is blocked |
| Breakers.BlockedHasFailures | cys_core/domain/security/agent_bus.py:33-41 | If it is blocked, at least threshold failures are on record and the newest is within the timeout |
| Breakers.SingleFailureExact | cys_core/domain/security/agent_bus.py:33-46 | With a threshold of one the answer is exactly that |
| Breakers.QueriesMatter | cys_core/domain/security/agent_bus.py:37-40 | With any larger threshold no function of the failure history gives the answer: two runs with the same failures, one of them queried, end differently |
| Breakers.CircuitBreaker.IsOpen | cys_core/domain/security/agent_bus.py:33-41 | The query and its hidden reset refine the event semantics |
| Breakers.CircuitBreaker.RecordFailure | cys_core/domain/security/agent_bus.py:43-46 | So does a failure |
| Breakers.CircuitBreaker.RecordSuccess | cys_core/domain/security/agent_bus.py:48-50 | So does a success |
| Sanitizing.FilterUntrusted | cys_core/domain/security/sanitizer.py:114-123 | Marked text is returned as it is; other text is normalised, clipped, passed through each pattern in order and wrapped once, with the exact wrapping |
| Sanitizing.FilteredIsMarked | cys_core/domain/security/sanitizer.py:86-90 | Filtered text is marked, and text is left alone if and only if it was marked |
| Sanitizing.MarkerPrefixIsMarked | cys_core/domain/security/prompt_context.py:74-75 | Wrapped text passes the strip-and-prefix test that recognises wrapped text |
| Sanitizing.MarkedIff | cys_core/domain/security/sanitizer.py:116 | Text is recognised as wrapped if and only if the marker follows its leading whitespace |
| Sanitizing.DictClean | cys_core/domain/security/agent_bus.py:178-195 | Sanitised payloads are clean at every depth |
| Sanitizing.FixedIffClean | cys_core/domain/security/agent_bus.py:178-195 | Sanitising leaves a payload alone if and only if it is clean |
| Sanitizing.SanitizeIdempotent | cys_core/domain/security/agent_bus.py:178-195 | Sanitising is idempotent on arbitrarily nested payloads |
| Sanitizing.SanitizedAtEveryDepth | cys_core/domain/security/agent_bus.py:178-195 | At any depth reached through dicts no system key survives for senders below PRIVILEGED, and every string, as a value or directly in a list, is marked |
| Sanitizing.NothingElseDropped | cys_core/domain/security/agent_bus.py:180-195 | What is kept stays in order under its own key: strings filtered, dicts sanitised alike, the strings of lists filtered, anything else untouched |
| Sanitizing.KeptEntryByEntry | cys_core/domain/security/agent_bus.py:179-181 | An entry is dropped exactly when its key starts with the system prefix and the sender is below PRIVILEGED; the others stay in order |
| AgentBus.GatePassesIff | cys_core/domain/security/agent_bus.py:101-126 | Exactly which messages pass: registered sender with a closed breaker, permitted recipient, a type its trust level may send, and on an escalation path nothing but a critic-approved escalation |
| AgentBus.GateRefuses | cys_core/domain/security/agent_bus.py:112-126 | Which gate refuses any other message of a registered sender |
| AgentBus.SendReceiveRoundTrip | cys_core/domain/security/agent_bus.py:128-169 | A sent message is accepted if and only if the reader is its recipient and at most five minutes have passed; what is delivered is the fixed point of sanitising |
| AgentBus.ReceivedIff | cys_core/domain/security/agent_bus.py:149-169 | Which check refuses a message, if and only if, and that any other is delivered with its payload |
| AgentBus.AcceptedIsWhatWasSent | cys_core/domain/security/agent_bus.py:149-169 | A message carrying the signature of a sent one is accepted if and only if it is that very message, at its recipient within five minutes, unless signing collides |
| AgentBus.FailingAgentCannotSend | cys_core/domain/security/agent_bus.py:112-114 | An agent whose newest failures are recent cannot send, whoever asked before |
| AgentBus.SecureAgentBus.RegisterAgent | cys_core/domain/security/agent_bus.py:80-94 | Registers with a new closed breaker; other agents keep theirs |
| AgentBus.SecureAgentBus.RecordAgentFailure | cys_core/domain/security/agent_bus.py:96-99 | Counts against that agent only |
| AgentBus.SecureAgentBus.SendMessage | cys_core/domain/security/agent_bus.py:101-147 | Each refusal if and only if its gate is the first to refuse; any other message is sent, with every stamped field and the payload sanitised for UNTRUSTED and INTERNAL senders; a query is charged to the sender's breaker and the two logged refusals are logged |
| ContextTrim.DropOldSplit | cys_core/application/runs/message_trim.py:10-14 | The oldest tool messages go; all other messages stay in order |
| ContextTrim.NewestToolsKept | cys_core/application/runs/message_trim.py:6-15 | The tool messages that remain are the newest: a suffix of those given |
| ContextTrim.TrimToolsExactly | cys_core/application/runs/message_trim.py:6-15 | Exactly what remains: the newest tool messages in place, everything else of the older part, then no leading tool results; nothing changes when there are few enough |
| ContextTrim.WindowExactly | cys_core/middleware/context_summary_middleware.py:34-42 | Exactly what is kept of an overflowing history: all system messages and as many of the newest others as fit beside them, at least one |
| QualityScores.RatesSmoothOutcomes | cys_core/application/use_cases/update_persona_quality.py:29-47 | However events of different kinds are mixed, each rate is the smoothing of its own outcomes alone |
| RunStep.RunsAreAccounted | cys_core/application/use_cases/run_step.py:225-275 | Every agent run but the first is paid for by one unit of the persisted counter, which stays within the limit; at most 1 + (limit - counter) runs, also when a run raises |
| RunStep.AtMostTwoRuns | cys_core/application/use_cases/run_step.py:229-235 | With a critic interval of at least two, one step runs the agent at most twice |
| RunStep.LastRunDecides | cys_core/application/use_cases/run_step.py:72-79 | The step raises if and only if its last run does, and waits for the user if and only if that run says so, or its sampled verdict asks for a rerun with the limit used up and escalation on |
| RunStep.EarlierRunsAskedAgain | cys_core/application/use_cases/run_step.py:225-275 | Every run before the last was sampled and asked for a rerun |
| RunStep.LifetimeAccounting | cys_core/application/use_cases/run_step.py:295-378 | Over any sequence of steps: one run per step plus the reruns charged, and the counter never passes the limit |
| RunStep.RunStepUseCase.RunConductor | cys_core/application/use_cases/run_step.py:191-293 | The recursion on persisted fields computes the specified outcome, and terminates; a run that raises leaves the counters advanced so far |
| RunStep.RunStepUseCase.Execute | cys_core/application/use_cases/run_step.py:331-378 | The new status in each branch from what the last agent run returned: AWAITING_USER if and only if it says so or its sampled verdict asks for a rerun with escalation on, otherwise IN_PROGRESS; AWAITING_PLAN_APPROVAL in plan mode; unchanged if it raised. Counters and number of runs in each branch |
| EventRouter.Route | cys_core/application/routing/event_router.py:54-100 | A persona is routed if and only if some rule of some plan names it, lists the event type or none, and asks for no severity after that of the event; personas in order of first occurrence, last explicit playbook or else first plan id, jobs, notification |
| EventRouter.AddMatch | cys_core/application/routing/event_router.py:64-76 | One matching rule folded into the running variables |
| EventRouter.FoldStep | cys_core/application/routing/event_router.py:73-77 | An explicit playbook always wins, a plan id only while there is none |
| EventRouter.RoutedIff | cys_core/domain/events/plans.py:62-67 | The fold over the matching rules yields exactly the personas so described, whatever plan and position the rule has |
| EventRouter.NamesIff | cys_core/domain/events/plans.py:62-67 | When a rule applies to an event, with the severities compared by their place in the list |
| EventRouter.AtLeastRank | cys_core/domain/events/plans.py:58-59 | Comparing ranks is comparing places in the list of severities |
| EventRouter.SeverityMonotone | cys_core/domain/events/plans.py:58-67 | Raising the severity never removes a persona |
| EventRouter.NoPersonasNoMatch | cys_core/application/routing/event_router.py:83-90 | The empty decision is returned if and only if no rule matched |
| EventRouter.AddPersonas | cys_core/application/routing/event_router.py:70-72 | The membership-tested append of one rule keeps first occurrences in order |
| EventRouter.RoutePlan | cys_core/application/routing/event_router.py:62-77 | The inner loop folds in exactly the matching rules of one plan |
| EventRouter.RoutePlans | cys_core/application/routing/event_router.py:62-77 | The nested loop folds in exactly the matching rules of all plans, in plan order |
| ContextTrim.HealOrphanedToolMessages | cys_core/application/runs/message_trim.py:18-36 | Splits the history into tool results, which are popped, and a rest that does not start with one |
| ContextTrim.TrimmedToolCount | cys_core/application/runs/message_trim.py:6-15 | With a positive keep at most that many tool messages remain |
| ContextTrim.TrimShape | cys_core/middleware/context_summary_middleware.py:34-42 | A trimmed history never starts with a tool result and holds at most keep tool messages |
| ContextTrim.StillTooLong | cys_core/middleware/context_summary_middleware.py:44-58 | One still over the limit is all system messages but possibly the last, so head and tail may be kept |
| ContextTrim.TrimIdempotent | cys_core/middleware/context_summary_middleware.py:34-42 | Trimming twice is trimming once |
| ContextTrim.TrimKeepsOrder | cys_core/middleware/context_summary_middleware.py:38-42 | All system messages are kept in order; the others are a subsequence of those given |
| ContextTrim.ContextSummaryMiddleware.JoinAppend | cys_core/middleware/context_summary_middleware.py:48-51 | The text handed to the summariser is the contents of all messages, one line break between any two |
| ContextTrim.ContextSummaryMiddleware.MaybeSummarize | cys_core/middleware/context_summary_middleware.py:44-60 | At most max(max_messages, 3) messages, no leading tool result, at most keep tool messages; the exact result and new summary in both cases |
| PlanDelta.MergePlanDelta | cys_core/application/runs/plan_helpers.py:32-64 | The loop over the dict computes the specified merge |
| PlanDelta.MergedIds | cys_core/application/runs/plan_helpers.py:39-64 | Existing ids first, in order, then new ids in delta order; distinct; none lost |
| PlanDelta.PrefixIffDistinct | cys_core/application/runs/plan_helpers.py:39-64 | The ids present before are a prefix of those after if and only if they were distinct |
| PlanDelta.TodosKept | cys_core/application/runs/plan_helpers.py:48-56 | Every todo keeps place, id and dependencies and has been changed by exactly the items that name it |
| PlanDelta.ItemsTrack | cys_core/application/runs/plan_helpers.py:40-63 | What a delta does to one id depends only on the items that name it |
| PlanDelta.TrackNew | cys_core/application/runs/plan_helpers.py:57-63 | A new todo is created by the first item that gives it content, and knows nothing of the items before that |
| PlanDelta.DeltaTwiceIff | cys_core/application/runs/plan_helpers.py:32-64 | Applying a delta a second time changes nothing if and only if, for every id it creates, an item before the creating one names a persona only if some item from that one on does too |
| PlanDelta.DeltaIdempotent | cys_core/application/runs/plan_helpers.py:32-64 | So a delta whose items have distinct ids may be applied any number of times |
| PlanDelta.EarlyPersonaNotIdempotent | cys_core/application/runs/plan_helpers.py:48-63 | A delta that assigns a persona to an id before giving it content is not idempotent |
| PlanDelta.IndexById | cys_core/application/runs/plan_helpers.py:39 | The dict comprehension: first position, last value per id |
| PlanDelta.ByIdKeepsLast | cys_core/application/runs/plan_helpers.py:39 | Of several todos with one id the last is kept |
| PlanDelta.NamedByPosition | cys_core/application/runs/plan_helpers.py:43 | An item without an id is known by the decimal form of its position, the first being 1 |
| PlanDelta.DecimalReads | cys_core/application/runs/plan_helpers.py:43 | Decimal forms consist of digits standing for the number, without leading zeros, so no two positions share one |
| PlanDelta.MergeItem | cys_core/application/runs/plan_helpers.py:48-63 | An update of the todo it names, or a new todo when it has content |
| SpawnChain.JobRoundTrip | cys_core/domain/runs/models.py:61-72 | What a child knows of itself survives the trip through the queue; mode and profile do not |
| SpawnChain.SpawnedJob | cys_core/application/spawn_broker.py:72-86 | The job of a child: filed with its parent as investigation, one level deeper, waiting for no one, with no budget of its own |
| SpawnChain.FiledUnderParent | cys_core/application/use_cases/run_worker_job.py:81-92 | Findings of a spawned job are filed under its parent's correlation key, its completion under the parent's id |
| SpawnChain.EndOfChain | cys_core/application/spawn_broker.py:72-86 | Each link is exactly one level deeper than its parent and in the same tenant |
| SpawnChain.ValidateRefuses | cys_core/application/spawn_broker.py:45-70 | Which check refuses a spawn, if and only if, in the order of the checks |
| SpawnChain.ChainAllowedIff | cys_core/application/spawn_broker.py:45-86 | A chain of spawns is allowed link by link if and only if each link is admissible and stands at a depth below both limits |
| SpawnChain.ChainsAreFinite | cys_core/application/spawn_broker.py:55-57 | Every allowed chain ends within both limits, so its length is bounded by the limit less the depth of its root |
| SpawnChain.LongestChain | cys_core/application/spawn_broker.py:45-86 | Admissible links of one profile can be chained exactly up to the limit less the depth of the root, and the next link is refused for its depth |
| QualityScores.EmaInRange | cys_core/application/use_cases/update_persona_quality.py:11-14 | The score stays between the least and greatest of its start and the samples |
| QualityScores.EmaMovesTowards | cys_core/application/use_cases/update_persona_quality.py:11-14 | A positive score moves towards the sample by the share alpha of the distance; one that is not positive jumps to it |
| QualityScores.FreshScoreTakesFirst | cys_core/application/use_cases/update_persona_quality.py:11-14 | A score that was never set forgets its start and begins at the first sample |
| QualityScores.EmaConverges | cys_core/application/use_cases/update_persona_quality.py:11-14 | After k equal positive samples the distance is exactly (1-alpha)^k times the starting distance |
| QualityScores.QualityAfter | cys_core/application/use_cases/update_persona_quality.py:21-47 | After any events trust is the smoothed signals, the sample size counts the events, the rates stay shares |
| QualityScores.TrustInRange | cys_core/application/use_cases/update_persona_quality.py:21-47 | Trust stays between the least and greatest of its start and the signals seen |
| QualityScores.InMemoryAgentCatalog.UpsertAgent | cys_core/infrastructure/catalog/memory.py:28-37 | An existing entry's quality object wins over the one that comes with the entry; the version of the entry and of its profile count up |
| QualityScores.InMemoryAgentCatalog.ApplyEvent | cys_core/application/use_cases/update_persona_quality.py:21-50 | The update reaches the stored score through the aliased entry, once, and no other persona's: trust moves with every event, each rate with its own kinds of event, towards 1 or 0 |
| QualityScores.MeanIsExact | cys_core/application/use_cases/update_plan_quality.py:15-19 | Mean times count is exactly the sum of all job counts recorded |
| QualityScores.PlanQualityRecord.RecordMatch | cys_core/application/use_cases/update_plan_quality.py:11-20 | The stored counters keep that equation after every match |

## Left out

- ToolGates.BudgetNeverExceeded: bounds all returned bodies by the counted calls only up to the overlap of calls, because the middleware counts a call after its body; `ToolGates.OverlapOvershoots` shows that nothing smaller holds, `ToolGates.ActionsNeverOvershoot` that action tools stay within.
- ToolGates.SecurityMiddleware.WrapToolCall: the limiter is the in-memory one; the deployed class prefers a Redis limiter whose set members have second granularity; no window property is claimed of it.
- ToolGates.SecurityMiddleware.WrapToolCall: the human's answer is given within the call; the interrupt that suspends the graph and replays the gates on resumption is not modelled, nor is the monitor's log.
- WorkerPlane.RunWorkerJob.Execute: faults are raised by the calls of the try block and are of the three handled classes; cancellation, a handler or a finally clause that itself raises, and a result the run result rejects for reasons other than not being a dict are not modelled.
- WorkerPlane.RunWorkerJob.RunAgent: the store is written during a run only by the pauses of that run's own risky calls.
- WorkerPlane.RunWorkerJob.Handle: the dead-letter send, which the in-memory queue does not have, and the persona-quality hooks are left out.
- WorkerPlane.RunWorkerJob.AppendFinding: a finding is its persona, job and body; the merging of reasoning metadata and schema-validated fields into the result is left to the oracle.
- WorkerPlane.WorkerOrchestrator.RunJob: the calls between the gate and the try block (budget enrichment, catalog lookup, metrics) do not raise.
- WorkerPlane.InMemoryInvestigationStateStore.MarkPersonaDone: investigation states and job records are values in a map, so the aliasing of records that a store returns is not captured.
- WorkerPlane.BatchOnRecord: assumes the random suffixes of a batch differ; with equal ones the record of a repeated persona replaces the earlier one.
- WorkerPlane.BatchFiled: assumes that every append of a finding is reached and takes effect, since a failed run files none.
- JobStores.RelatedObservations: listings are compared as sets; the two stores order them differently (by job id and by creation time).
- JobStores.StoresSubstitutable: needs nonempty ids on pending upserts; `JobStores.PendingRelatedIff` shows the condition is exact.
- HitlResume.ApprovalNeverMismatches: hashing is one deterministic function of the arguments; serialisation of arguments on their way through a store is the identity.
- HitlResume.EachPauseConsumedOnce: the checks of a request and its status change are one step, so two approvers racing on one row from different processes are not modelled.
- HitlResume.AcceptedRunsPausedArgs: the suspended call is resumed with the arguments it was made with; what the model calls next is the agent's business.
- HitlResume.StaysOpenIff: assumes approval ids are not used again, as they are generated afresh; `HitlResume.OpenIff` does without.
- HitlResume.ResumeHitlJob.Execute: the writes during a resume are store operations; requests decided meanwhile appear there as the marks they lead to, and as themselves in the protocol.
- AgentBus.SendReceiveRoundTrip: payloads serialise without error and messages have all their fields; the sender's mutual-TLS subject, which no check reads, is left out.
- Sanitizing.FilterUntrusted: input clipping and pattern substitution as in the source, on arbitrary functions; injection classification and the blocking sanitiser are not modelled.
- RateLimiter.NoWindowOverfull: time is a nondecreasing real; a wall clock that is set back is outside the theorem.
- RunStep.RunStepUseCase.RunConductor: critic settings are fixed and their fallbacks already resolved; prompts, todos, reflexion lessons and summaries are left to the oracle, and only the agent run raises.
- RunStep.RunStepUseCase.Execute: the run state is one the in-memory store already holds, so counters advanced before an exception stay; a first step that raises stores nothing.
- ContextTrim.TrimShape: no message is both a system message and a tool result, as no message class of the library is.
- PlanDelta.MergePlanDelta: alternative field names are resolved and statuses normalised beforehand; integer ids appear as their decimal strings.
- SpawnChain.ChainAllowedIff: limits and trust floors are functions of the profile; the persona overlay and idempotency key of a spawn are left out.
- QualityScores.QualityAfter: reals in place of floating point; the evaluation timestamp, metrics export and declared trust are left out.
- PostgreSQL, Redis, Kafka, Qdrant and Kubernetes adapters: only the job store's row is modelled, as a map.
- Token and cost accounting of the budget tracker: settled by reading one branch.
- The middleware stack without schema-guided reasoning, scope and coercion middlewares, and the library's own approval middleware: easy members.
- `activate_plan` of the in-memory plan catalog and the persistence of persona quality: no property is claimed of them.
- Planner output parsing, catalog editing, ingestion, API, command line parsing and user interface: plumbing.
- The status, sandbox id and critic feedback carried by a job, which neither gate nor marks read.
